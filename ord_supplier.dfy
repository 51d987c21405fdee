/**
 * The supplier sync of the order service (src/services/supplier.service.js):
 * each product the supplier's API returns is priced, its images collected,
 * and upserted by the supplier's id; the result counts what was created,
 * updated and failed. The HTTP call is a parameter (its response, or that
 * it failed); `parseFloat`/`parseInt` results are given already parsed.
 */
module OrdSupplier {
  import opened Common
  import opened OrdModel
  import OrdPricing

  /**
   * One product as the supplier sends it. `salePrice` is absent when
   * `sale_price` is missing, falsy or not a number; `price` and `stock`
   * when they are not numbers; `productImages` when `product_images` is not
   * an array (each element is its `product_image`, `""` when falsy); an
   * empty `thumbnail` or `category` is one that is missing or empty.
   */
  datatype SupplierItem = SupplierItem(
    id: Option<string>,
    name: Option<string>,
    details: Option<string>,
    salePrice: Option<real>,
    price: Option<real>,
    thumbnail: string,
    productImages: Option<seq<string>>,
    category: string,
    stock: Option<int>)

  /** `response.data?.products || response.data?.data?.products || []`, or the request failing. */
  datatype Response = Unreachable | Received(products: Option<seq<SupplierItem>>)

  datatype Tally = Tally(created: nat, updated: nat, failed: nat)

  datatype Outcome = Created | Updated | Failed

  datatype SyncError = SupplierApiFailed

  /** The sale price when it is positive, otherwise the list price (absent when that is not a number). */
  function BuyPrice(item: SupplierItem): (r: Option<real>)
    ensures item.salePrice.Some? && item.salePrice.value > 0.0 ==> r == item.salePrice
    ensures !(item.salePrice.Some? && item.salePrice.value > 0.0) ==> r == item.price
  {
    if item.salePrice.Some? && item.salePrice.value > 0.0 then item.salePrice else item.price
  }

  /** The thumbnail when there is one, then each product image not yet in the list, in order. */
  function ImageList(thumbnail: string, images: seq<string>): seq<string>
    decreases |images|
  {
    if images == [] then (if thumbnail != [] then [thumbnail] else [])
    else
      var init := ImageList(thumbnail, images[..|images| - 1]);
      var img := images[|images| - 1];
      if img != [] && img !in init then init + [img] else init
  }

  predicate NoDuplicates(s: seq<string>) {
    forall i, j :: 0 <= i < j < |s| ==> s[i] != s[j]
  }

  /** The list holds each non-empty image once, the thumbnail first, and nothing else. */
  lemma {:induction false} ImageListSound(thumbnail: string, images: seq<string>)
    ensures NoDuplicates(ImageList(thumbnail, images))
    ensures forall x :: x in ImageList(thumbnail, images) <==> x != [] && (x == thumbnail || x in images)
    ensures thumbnail != [] ==> |ImageList(thumbnail, images)| > 0 && ImageList(thumbnail, images)[0] == thumbnail
    decreases |images|
  {
    if images != [] {
      var init := images[..|images| - 1];
      ImageListSound(thumbnail, init);
      assert images == init + [images[|images| - 1]];
    }
  }

  /** The image loop of the sync: keep a list, append what it does not hold yet. */
  method BuildImageList(thumbnail: string, images: Option<seq<string>>) returns (r: seq<string>)
    ensures r == ImageList(thumbnail, if images.Some? then images.value else [])
  {
    r := [];
    if thumbnail != [] {
      r := r + [thumbnail];
    }
    if images.Some? {
      var imgs := images.value;
      var i := 0;
      while i < |imgs|
        invariant 0 <= i <= |imgs|
        invariant r == ImageList(thumbnail, imgs[..i])
      {
        assert imgs[..i + 1][..i] == imgs[..i];
        if imgs[i] != [] && imgs[i] !in r {
          r := r + [imgs[i]];
        }
        i := i + 1;
      }
      assert imgs[..|imgs|] == imgs;
    }
  }

  /**
   * The `$set` the sync writes for an item, or `None` when the item throws
   * before the write: a buy price that is not a positive number, or no id.
   * The name is trimmed by the schema's setter; a missing name or `details`
   * is `undefined` and so not set.
   */
  function Prepared(item: SupplierItem, cfg: OrdPricing.PricingConfig, now: nat): (r: Option<ProductSet>)
    ensures r.None? <==> BuyPrice(item).None? || BuyPrice(item).value <= 0.0 || item.id.None?
    ensures r.Some? ==> var s := r.value;
      && s.supplierProductId == item.id.value
      && s.buyPrice == BuyPrice(item).value
      && s.sellPrice == OrdPricing.SellPrice(BuyPrice(item), cfg)
      && s.images == ImageList(item.thumbnail, if item.productImages.Some? then item.productImages.value else [])
      && s.category == (if item.category == [] then "Uncategorized" else item.category)
      && s.stock == (if item.stock.Some? then item.stock.value else 0)
      && s.name == (if item.name.Some? then Some(Trim(item.name.value)) else None)
      && s.description == item.details && s.lastSyncedAt == now
  {
    var buy := BuyPrice(item);
    if buy.None? || buy.value <= 0.0 || item.id.None? then None
    else
      Some(ProductSet(item.id.value, if item.name.Some? then Some(Trim(item.name.value)) else None, item.details,
                      ImageList(item.thumbnail, if item.productImages.Some? then item.productImages.value else []),
                      if item.category == [] then "Uncategorized" else item.category,
                      buy.value, OrdPricing.SellPrice(buy, cfg),
                      if item.stock.Some? then item.stock.value else 0, now))
  }

  /**
   * A prepared `$set` fails the update validators only for a name sent that
   * trims to nothing; the supplier's id, even an empty one, is in the filter
   * and is not validated.
   */
  lemma PreparedValidity(item: SupplierItem, cfg: OrdPricing.PricingConfig, now: nat)
    requires Prepared(item, cfg, now).Some?
    ensures SetValid(Prepared(item, cfg, now).value) <==> (item.name.Some? ==> Trim(item.name.value) != [])
  {
    var s := Prepared(item, cfg, now).value;
    if item.name.Some? {
      TrimIdempotent(item.name.value);
    }
    ImageListSound(item.thumbnail, if item.productImages.Some? then item.productImages.value else []);
    assert forall k :: 0 <= k < |s.images| ==> s.images[k] in s.images;
    assert s.category != [];
  }

  /** One item: the products after it and what it counted as. */
  function SyncStep(products: seq<Product>, item: SupplierItem, cfg: OrdPricing.PricingConfig, now: nat)
    : (r: (seq<Product>, Outcome))
    ensures r.1 == Failed <==> (Prepared(item, cfg, now).None? || !SetValid(Prepared(item, cfg, now).value)
      || (FindBySupplierId(products, item.id.value).None? && item.name.None?))
    ensures r.1 == Failed ==> r.0 == products
    ensures r.1 == Created ==> (FindBySupplierId(products, item.id.value).None? && item.name.Some?
      && r.0 == products + [Inserted(Prepared(item, cfg, now).value)])
    ensures r.1 == Updated ==> (FindBySupplierId(products, item.id.value).Some?
      && var k := FindBySupplierId(products, item.id.value).value;
         r.0 == products[k := Applied(products[k], Prepared(item, cfg, now).value)])
  {
    match Prepared(item, cfg, now)
    case None => (products, Failed)
    case Some(s) =>
      if !SetValid(s) then (products, Failed)
      else match FindBySupplierId(products, s.supplierProductId)
        case None => if s.name.None? then (products, Failed) else (products + [Inserted(s)], Created)
        case Some(k) => (products[k := Applied(products[k], s)], Updated)
  }

  /**
   * Resyncing a stored product from an item without a name or `details`
   * keeps the stored name or description, since the `$set` leaves them out.
   */
  lemma SyncKeepsUnsentFields(products: seq<Product>, item: SupplierItem, cfg: OrdPricing.PricingConfig, now: nat)
    requires SyncStep(products, item, cfg, now).1 == Updated
    ensures var k := FindBySupplierId(products, item.id.value).value;
      var after := SyncStep(products, item, cfg, now).0;
      && |after| == |products|
      && (item.name.None? ==> after[k].name == products[k].name)
      && (item.details.None? ==> after[k].description == products[k].description)
      && (item.details.Some? ==> after[k].description == item.details)
  {
  }

  function Add(t: Tally, o: Outcome): (r: Tally)
    ensures r.created + r.updated + r.failed == t.created + t.updated + t.failed + 1
  {
    match o
    case Created => t.(created := t.created + 1)
    case Updated => t.(updated := t.updated + 1)
    case Failed => t.(failed := t.failed + 1)
  }

  /** The items one after another, from the products stored before. */
  function Synced(products: seq<Product>, items: seq<SupplierItem>, cfg: OrdPricing.PricingConfig, now: nat)
    : (r: (seq<Product>, Tally))
    ensures r.1.created + r.1.updated + r.1.failed == |items|
    ensures |products| + r.1.created == |r.0|
    decreases |items|
  {
    if items == [] then (products, Tally(0, 0, 0))
    else
      var (before, t) := Synced(products, items[..|items| - 1], cfg, now);
      var (after, o) := SyncStep(before, items[|items| - 1], cfg, now);
      (after, Add(t, o))
  }

  lemma SyncedStep(products: seq<Product>, items: seq<SupplierItem>, i: nat, cfg: OrdPricing.PricingConfig, now: nat)
    requires i < |items|
    ensures var (before, t) := Synced(products, items[..i], cfg, now);
      var (after, o) := SyncStep(before, items[i], cfg, now);
      Synced(products, items[..i + 1], cfg, now) == (after, Add(t, o))
  {
    assert items[..i + 1][..i] == items[..i];
  }

  /** `syncProductsFromSupplier` with `created` counting the products that were new. */
  function SyncResult(products: seq<Product>, response: Response, cfg: OrdPricing.PricingConfig, now: nat)
    : (r: Result<(seq<Product>, Tally), SyncError>)
    ensures r.Err? <==> response.Unreachable?
    ensures response.Received? && (response.products.None? || response.products.value == []) ==>
      r == Ok((products, Tally(0, 0, 0)))
  {
    match response
    case Unreachable => Err(SupplierApiFailed)
    case Received(None) => Ok((products, Tally(0, 0, 0)))
    case Received(Some(items)) => Ok(Synced(products, items, cfg, now))
  }

  /**
   * As written: `findOneAndUpdate` with `new: true` returns the document,
   * which has no `upsertedId`, so every stored product counts as updated.
   */
  function SyncResultAsWritten(products: seq<Product>, response: Response, cfg: OrdPricing.PricingConfig, now: nat)
    : Result<(seq<Product>, Tally), SyncError>
  {
    match SyncResult(products, response, cfg, now)
    case Err(e) => Err(e)
    case Ok((after, t)) => Ok((after, Tally(0, t.created + t.updated, t.failed)))
  }

  /** An item with the empty id is still upserted, under the supplier id `""`. */
  lemma EmptySupplierIdStored()
    ensures var item := SupplierItem(Some(""), Some("Card"), None, None, Some(100.0), [], None, [], None);
      var cfg := OrdPricing.ConfigFrom([], None, []);
      var r := SyncStep([], item, cfg, 0);
      && r.1 == Created && |r.0| == 1 && r.0[0].supplierProductId == ""
  {
    var item := SupplierItem(Some(""), Some("Card"), None, None, Some(100.0), [], None, [], None);
    var cfg := OrdPricing.ConfigFrom([], None, []);
    assert Trim("Card") == "Card" by { TrimOfTrimmed("Card"); }
    PreparedValidity(item, cfg, 0);
  }

  /** One new, valid item: the store gains a product, which as written is not counted as created. */
  lemma SyncAsWrittenNeverCreates()
    ensures var item := SupplierItem(Some("7"), Some("Card"), None, None, Some(100.0), [], None, [], None);
      var cfg := OrdPricing.ConfigFrom([], None, []);
      && SyncResult([], Received(Some([item])), cfg, 0).value.1 == Tally(1, 0, 0)
      && SyncResultAsWritten([], Received(Some([item])), cfg, 0).value.1 == Tally(0, 1, 0)
      && |SyncResultAsWritten([], Received(Some([item])), cfg, 0).value.0| == 1
  {
    var item := SupplierItem(Some("7"), Some("Card"), None, None, Some(100.0), [], None, [], None);
    var cfg := OrdPricing.ConfigFrom([], None, []);
    assert Trim("Card") == "Card" by { TrimOfTrimmed("Card"); }
    PreparedValidity(item, cfg, 0);
    assert [item][..0] == [];
  }

  /** The store stays valid whatever the supplier sends. */
  lemma {:induction false} SyncedKeepsValid(products: seq<Product>, items: seq<SupplierItem>, cfg: OrdPricing.PricingConfig, now: nat)
    requires StoredProductsValid(products)
    ensures StoredProductsValid(Synced(products, items, cfg, now).0)
    decreases |items|
  {
    if items != [] {
      var before := Synced(products, items[..|items| - 1], cfg, now).0;
      SyncedKeepsValid(products, items[..|items| - 1], cfg, now);
      var item := items[|items| - 1];
      var (after, o) := SyncStep(before, item, cfg, now);
      if o == Created {
        AppendProductKeepsValid(before, Inserted(Prepared(item, cfg, now).value));
      } else if o == Updated {
        var k := FindBySupplierId(before, item.id.value).value;
        AppliedSchemaValid(before[k], Prepared(item, cfg, now).value);
        ReplaceProductKeepsValid(before, k, Applied(before[k], Prepared(item, cfg, now).value));
      }
    }
  }

  /** A product created from an item is found again by its id, so the same item a second time updates it. */
  lemma ResyncUpdates(products: seq<Product>, item: SupplierItem, cfg: OrdPricing.PricingConfig, now: nat, later: nat)
    requires SyncStep(products, item, cfg, now).1 == Created
    ensures SyncStep(SyncStep(products, item, cfg, now).0, item, cfg, later).1 == Updated
  {
    var p := Inserted(Prepared(item, cfg, now).value);
    PreparedValidity(item, cfg, now);
    PreparedValidity(item, cfg, later);
    var after := products + [p];
    assert after[|products|].supplierProductId == item.id.value;
  }

  /** Syncing the same item again leaves one product for its id, rewritten with the new time. */
  lemma ResyncReplaces(products: seq<Product>, item: SupplierItem, cfg: OrdPricing.PricingConfig, now: nat, later: nat)
    requires SyncStep(products, item, cfg, now).1 != Failed
    ensures var after := SyncStep(products, item, cfg, now).0;
      var again := SyncStep(after, item, cfg, later);
      && again.1 == Updated && |again.0| == |after|
      && var k := FindBySupplierId(after, item.id.value).value;
         again.0 == after[k := Applied(after[k], Prepared(item, cfg, later).value)]
  {
    var (after, o) := SyncStep(products, item, cfg, now);
    PreparedValidity(item, cfg, now);
    PreparedValidity(item, cfg, later);
    var k := if o == Created then |products| else FindBySupplierId(products, item.id.value).value;
    assert after[k].supplierProductId == item.id.value;
  }

  /** The body of the loop: prepare the item, then upsert it; any exception counts it as failed. */
  method SyncItem(store: ProductStore, item: SupplierItem, cfg: OrdPricing.PricingConfig, now: nat) returns (o: Outcome)
    requires store.Valid()
    modifies store
    ensures store.Valid()
    ensures (store.products, o) == SyncStep(old(store.products), item, cfg, now)
  {
    var prepared := Prepared(item, cfg, now);
    if prepared.None? {
      return Failed;
    }
    var images := BuildImageList(item.thumbnail, item.productImages);
    assert prepared.value.images == images;
    var saved := store.Upsert(prepared.value);
    if saved.Err? {
      o := Failed;
    } else if saved.value {
      o := Created;
    } else {
      o := Updated;
    }
  }

  /** `syncProductsFromSupplier` over the product collection. */
  method SyncProducts(store: ProductStore, response: Response, cfg: OrdPricing.PricingConfig, now: nat)
    returns (r: Result<Tally, SyncError>)
    requires store.Valid()
    modifies store
    ensures store.Valid()
    ensures var s := SyncResult(old(store.products), response, cfg, now);
      && (s.Err? ==> r == Err(s.error) && store.products == old(store.products))
      && (s.Ok? ==> r == Ok(s.value.1) && store.products == s.value.0)
  {
    if response.Unreachable? {
      return Err(SupplierApiFailed);
    }
    if response.products.None? || response.products.value == [] {
      return Ok(Tally(0, 0, 0));
    }
    var items := response.products.value;
    ghost var start := store.products;
    var tally := Tally(0, 0, 0);
    var i := 0;
    while i < |items|
      invariant 0 <= i <= |items|
      invariant store.Valid()
      invariant Synced(start, items[..i], cfg, now) == (store.products, tally)
    {
      SyncedStep(start, items, i, cfg, now);
      var o := SyncItem(store, items[i], cfg, now);
      tally := Add(tally, o);
      i := i + 1;
    }
    assert items[..|items|] == items;
    r := Ok(tally);
  }
}
