/**
 * The product document of the customer-facing shop (src/models/Product.js):
 * its fields, the `salePrice` and `images` validators, the pre-save hook that
 * derives `profitAmount` and `profitPercent`, and the default find filter.
 * Money is whole BDT (`int`); the profit percentage is a `real`.
 */
module NcbdProduct {
  import opened Common

  const Active := "active"
  const Inactive := "inactive"
  const Archived := "archived"

  datatype Product = Product(
    productId: string,
    titleEn: string,
    titleBn: string,
    slug: string,
    buyPrice: int,
    price: int,
    salePrice: Option<int>,   // `null` by default
    profitAmount: int,
    profitPercent: real,
    category: nat,            // `_id` of a category
    subcategory: nat,         // `_id` of a subcategory
    images: seq<string>,
    status: string,
    isDeleted: bool,
    createdAt: int)

  /** The price a customer pays: a truthy, positive `salePrice`, else `price`. */
  function EffectivePrice(p: Product): int {
    if p.salePrice.Some? && p.salePrice.value > 0 then p.salePrice.value else p.price
  }

  /** The `salePrice` validator: null, or strictly below the regular price. */
  predicate SalePriceValid(salePrice: Option<int>, price: int) {
    salePrice.None? || salePrice.value < price
  }

  /** The `images` validator: at least one image URL. */
  predicate ImagesValid(images: seq<string>) {
    |images| > 0
  }

  /** The checks of the schema that do not relate two fields: required keys, images, the status enum. */
  predicate FieldsValid(p: Product) {
    && p.productId != [] && p.titleEn != [] && p.titleBn != [] && p.slug != []
    && ImagesValid(p.images)
    && p.status in {Active, Inactive, Archived}
  }

  /** Everything the schema checks before a product is saved. */
  predicate SchemaValid(p: Product) {
    FieldsValid(p) && SalePriceValid(p.salePrice, p.price)
  }

  /** With a valid sale price, the effective price never exceeds the regular price, and is positive when that is. */
  lemma EffectivePriceBounds(p: Product)
    requires SalePriceValid(p.salePrice, p.price)
    ensures EffectivePrice(p) <= p.price
    ensures p.price > 0 ==> EffectivePrice(p) > 0
    ensures EffectivePrice(p) == p.price <==> (p.salePrice.None? || p.salePrice.value <= 0)
  {
  }

  /** `profitPercent` for a given selling price and buy price. */
  function ProfitPercent(sellingPrice: int, buyPrice: int): (pct: real)
    ensures buyPrice > 0 ==> pct * buyPrice as real == (sellingPrice - buyPrice) as real * 100.0
    ensures buyPrice <= 0 ==> (pct == 100.0 <==> sellingPrice > 0)
    ensures buyPrice <= 0 ==> (pct == 0.0 <==> sellingPrice <= 0)
  {
    if buyPrice > 0 then ((sellingPrice - buyPrice) as real / buyPrice as real) * 100.0
    else if sellingPrice > 0 then 100.0
    else 0.0
  }

  /** The derived fields are what the pre-save hook computes from the prices. */
  predicate ProfitConsistent(p: Product) {
    && p.profitAmount == EffectivePrice(p) - p.buyPrice
    && p.profitPercent == ProfitPercent(EffectivePrice(p), p.buyPrice)
  }

  /** The pre-save hook: recomputes the profit fields only when a price was modified. */
  function ProfitHook(p: Product, pricesModified: bool): (q: Product)
    ensures pricesModified ==> ProfitConsistent(q)
    ensures !pricesModified ==> q == p
    ensures q.(profitAmount := p.profitAmount, profitPercent := p.profitPercent) == p
  {
    if pricesModified then
      var selling := EffectivePrice(p);
      p.(profitAmount := selling - p.buyPrice, profitPercent := ProfitPercent(selling, p.buyPrice))
    else p
  }

  /** The hook only touches the derived fields it owns. */
  lemma ProfitHookIdempotent(p: Product)
    ensures ProfitHook(ProfitHook(p, true), true) == ProfitHook(p, true)
  {
  }

  /** Profit amount and buy price add up to what the customer pays. */
  lemma ProfitAddsUp(p: Product)
    requires ProfitConsistent(p)
    ensures p.profitAmount + p.buyPrice == EffectivePrice(p)
    ensures p.buyPrice > 0 ==> p.profitPercent * p.buyPrice as real == p.profitAmount as real * 100.0
  {
  }

  /** The `/^find/` query hook: deleted and archived products are invisible to every find. */
  predicate Visible(p: Product) {
    !p.isDeleted && p.status != Archived
  }

  /** The schema setters: `productId` and the titles are trimmed, `slug` is trimmed and lower-cased. */
  function ApplySetters(p: Product): Product {
    p.(productId := Trim(p.productId), titleEn := Trim(p.titleEn), titleBn := Trim(p.titleBn),
       slug := NormalizeKey(p.slug))
  }

  /** A unique index admits `p` at position `self` (or as a new document when `self` is out of range). */
  predicate UniqueAgainst(products: seq<Product>, p: Product, self: int) {
    forall j :: 0 <= j < |products| && j != self ==>
      products[j].productId != p.productId && products[j].slug != p.slug
  }

  /** The `productId` and `slug` unique indexes hold across all stored products, deleted ones included. */
  predicate IndexesUnique(products: seq<Product>) {
    forall i, j :: 0 <= i < j < |products| ==>
      products[i].productId != products[j].productId && products[i].slug != products[j].slug
  }

  /** `new Product(...).save()`: setters, validation, the profit hook, then the unique indexes. */
  function InsertDoc(products: seq<Product>, draft: Product, now: int): (r: Result<seq<Product>, StoreFailure>)
    ensures r.Ok? ==> |r.value| == |products| + 1 && r.value[..|products|] == products
    ensures r.Ok? ==> var p := r.value[|products|];
                      SchemaValid(p) && ProfitConsistent(p) && p.createdAt == now && !p.isDeleted
    ensures r.Ok? ==> var p := r.value[|products|];
                      && p.productId == Trim(draft.productId) && p.slug == NormalizeKey(draft.slug)
                      && p.titleEn == Trim(draft.titleEn) && p.titleBn == Trim(draft.titleBn)
                      && p.buyPrice == draft.buyPrice && p.price == draft.price && p.salePrice == draft.salePrice
                      && p.category == draft.category && p.subcategory == draft.subcategory
                      && p.images == draft.images && p.status == draft.status
    ensures r.Ok? <==> SchemaValid(Prepared(draft, now)) && UniqueAgainst(products, Prepared(draft, now), -1)
    ensures IndexesUnique(products) && r.Ok? ==> IndexesUnique(r.value)
  {
    var p := Prepared(draft, now);
    if !SchemaValid(p) then Err(ValidationFailed)
    else if !UniqueAgainst(products, p, -1) then Err(DuplicateKey)
    else
      var q := ProfitHook(p, true);
      assert q.productId == p.productId && q.slug == p.slug;
      Ok(products + [q])
  }

  /** The document a new product is written as, before the hook runs. */
  function Prepared(draft: Product, now: int): Product {
    ApplySetters(draft).(isDeleted := false, createdAt := now)
  }

  /** Replacing one document by one the unique indexes admit at its position keeps them unique. */
  lemma ReplaceKeepsUnique(products: seq<Product>, id: nat, q: Product)
    requires id < |products|
    requires UniqueAgainst(products, q, id)
    ensures IndexesUnique(products) ==> IndexesUnique(products[id := q])
  {
  }

  /**
   * What holds of the stored products whatever path wrote them: the unique
   * indexes, the single-field validators, and a deleted product is always
   * archived (the only write that sets the flag archives as well). The sale
   * price is not among them: an update that leaves `salePrice` out never
   * runs its validator, whatever the new price.
   */
  predicate StoredProductsValid(products: seq<Product>) {
    && IndexesUnique(products)
    && (forall i :: 0 <= i < |products| ==> FieldsValid(products[i]))
    && (forall i :: 0 <= i < |products| && products[i].isDeleted ==> products[i].status == Archived)
  }

  lemma InsertKeepsStoredValid(products: seq<Product>, draft: Product, now: int)
    requires StoredProductsValid(products)
    requires InsertDoc(products, draft, now).Ok?
    ensures StoredProductsValid(InsertDoc(products, draft, now).value)
  {
    var r := InsertDoc(products, draft, now).value;
    forall i | 0 <= i < |r| ensures FieldsValid(r[i]) && (r[i].isDeleted ==> r[i].status == Archived) {
      if i < |products| { assert r[i] == products[i]; }
    }
  }

  lemma ReplaceKeepsStoredValid(products: seq<Product>, id: nat, q: Product)
    requires StoredProductsValid(products)
    requires id < |products| && UniqueAgainst(products, q, id)
    requires FieldsValid(q) && (q.isDeleted ==> q.status == Archived)
    ensures StoredProductsValid(products[id := q])
  {
    ReplaceKeepsUnique(products, id, q);
  }
}
