/**
 * The product handlers of the shop (src/controllers/productController.js):
 * resolving category names, the duplicate checks, create, update, soft
 * delete, the public listing with its filters, sort and pagination, and the
 * single-product lookup.
 */
module NcbdProducts {
  import opened Common
  import opened Sorting
  import opened NcbdProduct
  import opened NcbdCatalog

  datatype Error =
    | CategoryNotFound       // 404
    | SubcategoryNotFound    // 404
    | SlugExists             // 409 'Slug already exists.'
    | ProductIdExists        // 409 'Product ID already exists.'
    | ProductNotFound        // 404
    | NegativeSkip           // the store refuses a negative `skip`
    | Store(failure: StoreFailure)

  /**
   * The fields of a create or update request body. The required fields are
   * always sent; `salePrice` and `status` may be left out, and `salePrice`
   * may also be sent as `null`. A field left out takes the schema default on
   * create and keeps its stored value on update (undefined keys are dropped
   * from the update document).
   */
  datatype ProductInput = ProductInput(
    productId: string,
    titleEn: string,
    titleBn: string,
    slug: string,
    buyPrice: int,
    price: int,
    salePrice: Option<Option<int>>,  // None: left out; Some(None): `null`; Some(Some(n)): n
    category: string,                // a category title or slug
    subcategory: string,             // a subcategory title or slug
    images: seq<string>,
    status: Option<string>)          // None: left out

  // ---------------------------------------------------------------------------
  // findCategoryIds (productController.js:10-27)

  /** The `$or: [{ title_en }, { slug }]` filter, with the query values passed through the setters. */
  predicate NamedBy(titleEn: string, slug: string, name: string) {
    titleEn == Trim(name) || slug == NormalizeKey(name)
  }

  predicate CategoryNamed(c: Category, name: string) {
    !c.isDeleted && NamedBy(c.titleEn, c.slug, name)
  }

  predicate SubcategoryNamed(s: Subcategory, parent: nat, name: string) {
    !s.isDeleted && s.category == parent && NamedBy(s.titleEn, s.slug, name)
  }

  function FindCategory(cs: seq<Category>, name: string): (r: Option<nat>)
    ensures r.Some? ==> r.value < |cs| && CategoryNamed(cs[r.value], name)
                        && forall k :: 0 <= k < r.value ==> !CategoryNamed(cs[k], name)
    ensures r.None? <==> forall k :: 0 <= k < |cs| ==> !CategoryNamed(cs[k], name)
  {
    FindFirst(cs, (c: Category) => CategoryNamed(c, name))
  }

  function FindSubcategory(ss: seq<Subcategory>, parent: nat, name: string): (r: Option<nat>)
    ensures r.Some? ==> r.value < |ss| && SubcategoryNamed(ss[r.value], parent, name)
                        && forall k :: 0 <= k < r.value ==> !SubcategoryNamed(ss[k], parent, name)
    ensures r.None? <==> forall k :: 0 <= k < |ss| ==> !SubcategoryNamed(ss[k], parent, name)
  {
    FindFirst(ss, (s: Subcategory) => SubcategoryNamed(s, parent, name))
  }

  /**
   * The first visible category named `categoryName`, then the first visible
   * subcategory of that very category named `subcategoryName`.
   */
  function FindCategoryIds(cs: seq<Category>, ss: seq<Subcategory>, categoryName: string, subcategoryName: string)
    : (r: Result<(nat, nat), Error>)
    ensures r.Err? ==> r.error in {CategoryNotFound, SubcategoryNotFound}
    ensures r.Err? && r.error == CategoryNotFound <==> forall k :: 0 <= k < |cs| ==> !CategoryNamed(cs[k], categoryName)
    ensures r.Ok? ==> var (cid, sid) := r.value;
      && cid < |cs| && CategoryNamed(cs[cid], categoryName)
      && sid < |ss| && SubcategoryNamed(ss[sid], cid, subcategoryName)
      && ss[sid].category == cid
    ensures r.Err? && r.error == SubcategoryNotFound ==>
      exists cid :: 0 <= cid < |cs| && CategoryNamed(cs[cid], categoryName)
                    && forall k :: 0 <= k < |ss| ==> !SubcategoryNamed(ss[k], cid, subcategoryName)
  {
    match FindCategory(cs, categoryName)
    case None => Err(CategoryNotFound)
    case Some(cid) =>
      match FindSubcategory(ss, cid, subcategoryName)
      case None => Err(SubcategoryNotFound)
      case Some(sid) => Ok((cid, sid))
  }

  // ---------------------------------------------------------------------------
  // Duplicate checks (productController.js:62-66, 126-133)

  /** `findOne({ $or: [{ slug }, { productId }], _id: { $ne: exclude } })` on a visible product. */
  predicate ClashesWith(p: Product, id: nat, slug: string, productId: string, exclude: Option<nat>) {
    Visible(p) && (p.slug == NormalizeKey(slug) || p.productId == Trim(productId))
    && (exclude.None? || id != exclude.value)
  }

  function FindDuplicate(ps: seq<Product>, slug: string, productId: string, exclude: Option<nat>): (r: Option<nat>)
    ensures r.Some? ==> r.value < |ps| && ClashesWith(ps[r.value], r.value, slug, productId, exclude)
    ensures r.None? <==> forall k :: 0 <= k < |ps| ==> !ClashesWith(ps[k], k, slug, productId, exclude)
  {
    var n := Numbered(ps);
    var r := FindFirst(n, (e: (nat, Product)) => ClashesWith(e.1, e.0, slug, productId, exclude));
    assert forall k :: 0 <= k < |ps| ==> n[k] == (k, ps[k]);
    r
  }

  /** The 409 message: the slug message exactly when the stored slug equals the slug as sent. */
  function DuplicateError(existing: Product, slug: string): (e: Error)
    ensures e == SlugExists <==> existing.slug == slug
    ensures e in {SlugExists, ProductIdExists}
  {
    if existing.slug == slug then SlugExists else ProductIdExists
  }

  /**
   * The stored slug is normalised but the message compares it with the slug
   * as sent: a slug clash that differs only in case is reported as a clash
   * of product ids.
   */
  lemma CaseOnlySlugClashReportedAsProductId()
    ensures var stored := Product("p", "t", "b", "s", 100, 200, None, 100, 100.0, 0, 0, ["u"], Active, false, 0);
      ClashesWith(stored, 0, "S", "q", None) && DuplicateError(stored, "S") == ProductIdExists
  {
    TrimOfTrimmed("S");
    assert AsciiLower("S") == "s";
  }

  // ---------------------------------------------------------------------------
  // createProduct (productController.js:37-95)

  /** The sale price a new product gets: the one sent, or the schema default `null`. */
  function SalePriceOnCreate(input: ProductInput): Option<int> {
    if input.salePrice.Some? then input.salePrice.value else None
  }

  /** `new Product({...})` before the setters run: schema defaults for the sale price, status and the profit fields. */
  function Draft(input: ProductInput, cid: nat, sid: nat): Product {
    Product(input.productId, input.titleEn, input.titleBn, input.slug, input.buyPrice, input.price,
            SalePriceOnCreate(input), 0, 0.0, cid, sid, input.images,
            if input.status.Some? then input.status.value else Active, false, 0)
  }

  method CreateProduct(c: Catalog, input: ProductInput, now: int) returns (r: Result<nat, Error>)
    requires c.Valid()
    modifies c
    ensures c.Valid()
    ensures c.categories == old(c.categories) && c.subcategories == old(c.subcategories)
    ensures var ids := FindCategoryIds(old(c.categories), old(c.subcategories), input.category, input.subcategory);
      && (ids.Err? ==> r == Err(ids.error) && c.products == old(c.products))
      && (ids.Ok? ==> var dup := FindDuplicate(old(c.products), input.slug, input.productId, None);
           && (dup.Some? ==> r == Err(DuplicateError(old(c.products)[dup.value], input.slug)) && c.products == old(c.products))
           && (dup.None? ==> var ins := InsertDoc(old(c.products), Draft(input, ids.value.0, ids.value.1), now);
                 && (ins.Err? ==> r == Err(Store(ins.error)) && c.products == old(c.products))
                 && (ins.Ok? ==> r == Ok(|old(c.products)|) && c.products == ins.value)))
  {
    var ids := FindCategoryIds(c.categories, c.subcategories, input.category, input.subcategory);
    if ids.Err? {
      return Err(ids.error);
    }
    var dup := FindDuplicate(c.products, input.slug, input.productId, None);
    if dup.Some? {
      return Err(DuplicateError(c.products[dup.value], input.slug));
    }
    var ins := InsertDoc(c.products, Draft(input, ids.value.0, ids.value.1), now);
    if ins.Err? {
      return Err(Store(ins.error));
    }
    InsertKeepsStoredValid(c.products, Draft(input, ids.value.0, ids.value.1), now);
    r := Ok(|c.products|);
    c.products := ins.value;
  }

  /**
   * A created product holds the request's fields after the setters, the
   * schema defaults for what was left out, and consistent profit figures; it
   * is visible when its status is not archived.
   */
  lemma CreatedProductProfitConsistent(ps: seq<Product>, input: ProductInput, cid: nat, sid: nat, now: int)
    requires InsertDoc(ps, Draft(input, cid, sid), now).Ok?
    ensures var q := InsertDoc(ps, Draft(input, cid, sid), now).value[|ps|];
      && ProfitConsistent(q) && q.profitAmount + q.buyPrice == EffectivePrice(q)
      && q.category == cid && q.subcategory == sid
      && q.productId == Trim(input.productId) && q.slug == NormalizeKey(input.slug)
      && q.titleEn == Trim(input.titleEn) && q.titleBn == Trim(input.titleBn)
      && q.buyPrice == input.buyPrice && q.price == input.price && q.images == input.images
      && (input.salePrice.None? ==> q.salePrice.None?)
      && (input.salePrice.Some? ==> q.salePrice == input.salePrice.value)
      && (input.status.Some? ==> q.status == input.status.value)
      && (input.status.None? ==> q.status == Active && Visible(q))
  {
    var q := InsertDoc(ps, Draft(input, cid, sid), now).value[|ps|];
    ProfitAddsUp(q);
  }

  // ---------------------------------------------------------------------------
  // updateProduct (productController.js:100-169)

  /** The sale price after an update: the one sent, a number or `null`, else the stored one. */
  function SalePriceOnUpdate(stored: Product, input: ProductInput): Option<int> {
    if input.salePrice.Some? then input.salePrice.value else stored.salePrice
  }

  /** The stored document with the fields the request sends written over it, through the setters. */
  function Merged(stored: Product, input: ProductInput, cid: nat, sid: nat): Product {
    ApplySetters(stored.(productId := input.productId, titleEn := input.titleEn, titleBn := input.titleBn,
                      slug := input.slug, buyPrice := input.buyPrice, price := input.price,
                      salePrice := SalePriceOnUpdate(stored, input), category := cid, subcategory := sid,
                      images := input.images,
                      status := if input.status.Some? then input.status.value else stored.status))
  }

  /**
   * The update validators on the single fields the request sends, after
   * their setters; a `status` left out is not checked, the stored one stays.
   */
  predicate SentFieldsValid(input: ProductInput) {
    && Trim(input.productId) != [] && Trim(input.titleEn) != [] && Trim(input.titleBn) != []
    && NormalizeKey(input.slug) != []
    && ImagesValid(input.images)
    && (input.status.None? || input.status.value in {Active, Inactive, Archived})
  }

  /**
   * The intended validation of an update: the fields sent, and the sale price
   * the document ends up with against the price it ends up with, as a save of
   * the merged document checks them.
   */
  predicate UpdateValidatorsPass(stored: Product, input: ProductInput) {
    SentFieldsValid(input) && SalePriceValid(SalePriceOnUpdate(stored, input), input.price)
  }

  /**
   * The update validators as they run under `findByIdAndUpdate`: only the
   * paths the update sets are validated, and the `salePrice` validator reads
   * `this.price` where `this` is the query, not the document, so a sale price
   * passes only when it is left out or `null`.
   */
  predicate UpdateValidatorsPassAsWritten(input: ProductInput) {
    SentFieldsValid(input) && (input.salePrice.None? || input.salePrice.value.None?)
  }

  /** Fields that pass their validators, written over a document whose fields are valid, leave them valid. */
  lemma MergedFieldsValid(stored: Product, input: ProductInput, cid: nat, sid: nat)
    requires FieldsValid(stored) && SentFieldsValid(input)
    ensures FieldsValid(Merged(stored, input, cid, sid))
  {
  }

  /** An update that passes the intended validation, over a document whose fields are valid, gives a valid document. */
  lemma MergedSchemaValid(stored: Product, input: ProductInput, cid: nat, sid: nat)
    requires FieldsValid(stored) && UpdateValidatorsPass(stored, input)
    ensures SchemaValid(Merged(stored, input, cid, sid))
  {
  }

  /**
   * `findByIdAndUpdate` as written: the update validators, the lookup through
   * the find hook, the unique indexes, then the write. No save hook runs, so
   * the profit fields keep their old values.
   */
  function UpdateAsWritten(ps: seq<Product>, id: nat, input: ProductInput, cid: nat, sid: nat)
    : (r: Result<seq<Product>, Error>)
    ensures r.Ok? ==> id < |ps| && r.value == ps[id := Merged(ps[id], input, cid, sid)]
    ensures r.Ok? ==> r.value[id].profitAmount == ps[id].profitAmount && r.value[id].profitPercent == ps[id].profitPercent
    ensures r.Ok? <==> UpdateValidatorsPassAsWritten(input) && id < |ps| && Visible(ps[id])
                       && UniqueAgainst(ps, Merged(ps[id], input, cid, sid), id)
    ensures input.salePrice.Some? && input.salePrice.value.Some? ==> r == Err(Store(ValidationFailed))
    ensures r.Err? ==> r.error in {Store(ValidationFailed), ProductNotFound, Store(DuplicateKey)}
    ensures StoredProductsValid(ps) && r.Ok? ==> StoredProductsValid(r.value)
  {
    if !UpdateValidatorsPassAsWritten(input) then Err(Store(ValidationFailed))
    else if !(id < |ps| && Visible(ps[id])) then Err(ProductNotFound)
    else
      var d := Merged(ps[id], input, cid, sid);
      if !UniqueAgainst(ps, d, id) then Err(Store(DuplicateKey))
      else
        assert StoredProductsValid(ps) ==> StoredProductsValid(ps[id := d]) by {
          if StoredProductsValid(ps) {
            MergedFieldsValid(ps[id], input, cid, sid);
            ReplaceKeepsStoredValid(ps, id, d);
          }
        }
        Ok(ps[id := d])
  }

  /**
   * The update as the comment at productController.js:163 intends it, that
   * is `findById` then `save`: the lookup, the sale price checked against the
   * new price, and the profit hook run on the new prices.
   */
  function Update(ps: seq<Product>, id: nat, input: ProductInput, cid: nat, sid: nat)
    : (r: Result<seq<Product>, Error>)
    ensures r.Ok? ==> id < |ps| && |r.value| == |ps|
    ensures r.Ok? ==> forall j :: 0 <= j < |ps| && j != id ==> r.value[j] == ps[j]
    ensures r.Ok? ==> r.value[id] == ProfitHook(Merged(ps[id], input, cid, sid), true)
    ensures r.Ok? ==> ProfitConsistent(r.value[id])
    ensures r.Ok? && FieldsValid(ps[id]) ==> SchemaValid(r.value[id])
    ensures r.Ok? <==> id < |ps| && Visible(ps[id]) && UpdateValidatorsPass(ps[id], input)
                       && UniqueAgainst(ps, Merged(ps[id], input, cid, sid), id)
    ensures !(id < |ps| && Visible(ps[id])) ==> r == Err(ProductNotFound)
    ensures StoredProductsValid(ps) && r.Ok? ==> StoredProductsValid(r.value)
    ensures r.Err? ==> r.error in {Store(ValidationFailed), ProductNotFound, Store(DuplicateKey)}
  {
    if !(id < |ps| && Visible(ps[id])) then Err(ProductNotFound)
    else if !UpdateValidatorsPass(ps[id], input) then Err(Store(ValidationFailed))
    else
      var d := Merged(ps[id], input, cid, sid);
      if !UniqueAgainst(ps, d, id) then Err(Store(DuplicateKey))
      else
        var q := ProfitHook(d, true);
        assert q.productId == d.productId && q.slug == d.slug;
        assert FieldsValid(ps[id]) ==> SchemaValid(q) by {
          if FieldsValid(ps[id]) { MergedSchemaValid(ps[id], input, cid, sid); }
        }
        assert StoredProductsValid(ps) ==> StoredProductsValid(ps[id := q]) by {
          if StoredProductsValid(ps) { ReplaceKeepsStoredValid(ps, id, q); }
        }
        Ok(ps[id := q])
  }

  /**
   * As written, an update that changes what the customer pays, and not the
   * buy price, leaves the stored profit figures describing the old price;
   * the intended update takes the same request unless the sale price it
   * keeps is not below the new price, and then records the new profit.
   */
  lemma UpdateAsWrittenLeavesProfitStale(ps: seq<Product>, id: nat, input: ProductInput, cid: nat, sid: nat)
    requires id < |ps| && ProfitConsistent(ps[id])
    requires UpdateAsWritten(ps, id, input, cid, sid).Ok?
    requires input.buyPrice == ps[id].buyPrice
    requires EffectivePrice(Merged(ps[id], input, cid, sid)) != EffectivePrice(ps[id])
    ensures !ProfitConsistent(UpdateAsWritten(ps, id, input, cid, sid).value[id])
    ensures Update(ps, id, input, cid, sid).Ok? <==> SalePriceValid(SalePriceOnUpdate(ps[id], input), input.price)
    ensures Update(ps, id, input, cid, sid).Ok? ==> ProfitConsistent(Update(ps, id, input, cid, sid).value[id])
  {
  }

  /** A stored product bought at 100 and sold at 200, with its profit of 100 recorded. */
  const SampleProduct := Product("p", "t", "b", "s", 100, 200, None, 100, 100.0, 0, 0, ["u"], Active, false, 0)

  /** The same product on sale at 150, with its profit of 50 recorded. */
  const SampleOnSale := SampleProduct.(salePrice := Some(150), profitAmount := 50, profitPercent := 50.0)

  /** The request that reprices it at 300, leaving the sale price out. */
  const RepriceRequest := ProductInput("p", "t", "b", "s", 100, 300, None, "c", "s", ["u"], None)

  /** The request that puts it on sale at 150. */
  const SaleRequest := ProductInput("p", "t", "b", "s", 100, 200, Some(Some(150)), "c", "s", ["u"], None)

  /** The request that cuts the price to 100, leaving the sale price out. */
  const PriceCutRequest := ProductInput("p", "t", "b", "s", 100, 100, None, "c", "s", ["u"], None)

  lemma SampleFieldsStored()
    ensures Merged(SampleProduct, RepriceRequest, 0, 0) == SampleProduct.(price := 300)
    ensures Merged(SampleProduct, SaleRequest, 0, 0) == SampleProduct.(salePrice := Some(150))
    ensures Merged(SampleOnSale, PriceCutRequest, 0, 0) == SampleOnSale.(price := 100)
    ensures UpdateValidatorsPass(SampleProduct, RepriceRequest) && UpdateValidatorsPass(SampleProduct, SaleRequest)
    ensures SentFieldsValid(PriceCutRequest)
  {
    TrimOfTrimmed("p"); TrimOfTrimmed("t"); TrimOfTrimmed("b"); TrimOfTrimmed("s");
    assert NormalizeKey("s") == "s";
  }

  /** As written, repricing at 300 keeps the recorded profit of 100. */
  lemma RepriceAsWritten()
    ensures ProfitConsistent(SampleProduct)
    ensures UpdateAsWritten([SampleProduct], 0, RepriceRequest, 0, 0) == Ok([SampleProduct.(price := 300)])
    ensures !ProfitConsistent(SampleProduct.(price := 300))
  {
    SampleFieldsStored();
    assert [SampleProduct][0 := SampleProduct.(price := 300)] == [SampleProduct.(price := 300)];
  }

  /** As intended, repricing at 300 records a profit of 200. */
  lemma RepriceCorrected()
    ensures Update([SampleProduct], 0, RepriceRequest, 0, 0)
         == Ok([SampleProduct.(price := 300, profitAmount := 200, profitPercent := 200.0)])
  {
    SampleFieldsStored();
    var q := SampleProduct.(price := 300, profitAmount := 200, profitPercent := 200.0);
    assert ProfitPercent(300, 100) == 200.0;
    assert ProfitHook(SampleProduct.(price := 300), true) == q;
    assert [SampleProduct][0 := q] == [q];
  }

  /** As written, a sale price of 150 below the price of 200 is refused. */
  lemma SalePriceAsWritten()
    ensures SalePriceValid(SaleRequest.salePrice.value, SaleRequest.price)
    ensures UpdateAsWritten([SampleProduct], 0, SaleRequest, 0, 0) == Err(Store(ValidationFailed))
  {
  }

  /** As intended, it is stored, with the profit taken at the sale price. */
  lemma SalePriceCorrected()
    ensures Update([SampleProduct], 0, SaleRequest, 0, 0)
         == Ok([SampleProduct.(salePrice := Some(150), profitAmount := 50, profitPercent := 50.0)])
  {
    SampleFieldsStored();
    var q := SampleProduct.(salePrice := Some(150), profitAmount := 50, profitPercent := 50.0);
    assert ProfitPercent(150, 100) == 50.0;
    assert ProfitHook(SampleProduct.(salePrice := Some(150)), true) == q;
    assert [SampleProduct][0 := q] == [q];
  }

  /**
   * As written, cutting the price to 100 while the product is on sale at 150
   * is stored: the sale price left out is never validated, and the product
   * ends up on "sale" above its regular price.
   */
  lemma PriceCutAsWritten()
    ensures SchemaValid(SampleOnSale)
    ensures UpdateAsWritten([SampleOnSale], 0, PriceCutRequest, 0, 0) == Ok([SampleOnSale.(price := 100)])
    ensures !SchemaValid(SampleOnSale.(price := 100))
  {
    SampleFieldsStored();
    assert [SampleOnSale][0 := SampleOnSale.(price := 100)] == [SampleOnSale.(price := 100)];
  }

  /** As intended, the same cut is refused while the sale price of 150 stands. */
  lemma PriceCutCorrected()
    ensures Update([SampleOnSale], 0, PriceCutRequest, 0, 0) == Err(Store(ValidationFailed))
  {
  }

  /** An archived product is out of reach of every later update, whatever the request. */
  lemma ArchivedProductCannotBeUpdated(ps: seq<Product>, id: nat, input: ProductInput, cid: nat, sid: nat)
    requires id < |ps| && ps[id].status == Archived
    ensures Update(ps, id, input, cid, sid).Err?
    ensures UpdateAsWritten(ps, id, input, cid, sid).Err?
  {
  }

  /** updateProduct as written: category names, the duplicate check excluding itself, then the update. */
  method UpdateProductAsWritten(c: Catalog, id: nat, input: ProductInput) returns (r: Result<(), Error>)
    requires c.Valid()
    modifies c
    ensures c.Valid()
    ensures c.categories == old(c.categories) && c.subcategories == old(c.subcategories)
    ensures var ids := FindCategoryIds(old(c.categories), old(c.subcategories), input.category, input.subcategory);
      && (ids.Err? ==> r == Err(ids.error) && c.products == old(c.products))
      && (ids.Ok? ==> var dup := FindDuplicate(old(c.products), input.slug, input.productId, Some(id));
           && (dup.Some? ==> r == Err(DuplicateError(old(c.products)[dup.value], input.slug)) && c.products == old(c.products))
           && (dup.None? ==> var u := UpdateAsWritten(old(c.products), id, input, ids.value.0, ids.value.1);
                 && (u.Err? ==> r == Err(u.error) && c.products == old(c.products))
                 && (u.Ok? ==> r == Ok(()) && c.products == u.value)))
  {
    var ids := FindCategoryIds(c.categories, c.subcategories, input.category, input.subcategory);
    if ids.Err? {
      return Err(ids.error);
    }
    var dup := FindDuplicate(c.products, input.slug, input.productId, Some(id));
    if dup.Some? {
      return Err(DuplicateError(c.products[dup.value], input.slug));
    }
    var u := UpdateAsWritten(c.products, id, input, ids.value.0, ids.value.1);
    if u.Err? {
      return Err(u.error);
    }
    c.products := u.value;
    r := Ok(());
  }

  /** updateProduct with the profit hook applied and the sale price checked against the new price. */
  method UpdateProduct(c: Catalog, id: nat, input: ProductInput) returns (r: Result<(), Error>)
    requires c.Valid()
    modifies c
    ensures c.Valid()
    ensures c.categories == old(c.categories) && c.subcategories == old(c.subcategories)
    ensures var ids := FindCategoryIds(old(c.categories), old(c.subcategories), input.category, input.subcategory);
      && (ids.Err? ==> r == Err(ids.error) && c.products == old(c.products))
      && (ids.Ok? ==> var dup := FindDuplicate(old(c.products), input.slug, input.productId, Some(id));
           && (dup.Some? ==> r == Err(DuplicateError(old(c.products)[dup.value], input.slug)) && c.products == old(c.products))
           && (dup.None? ==> var u := Update(old(c.products), id, input, ids.value.0, ids.value.1);
                 && (u.Err? ==> r == Err(u.error) && c.products == old(c.products))
                 && (u.Ok? ==> r == Ok(()) && c.products == u.value)))
  {
    var ids := FindCategoryIds(c.categories, c.subcategories, input.category, input.subcategory);
    if ids.Err? {
      return Err(ids.error);
    }
    var dup := FindDuplicate(c.products, input.slug, input.productId, Some(id));
    if dup.Some? {
      return Err(DuplicateError(c.products[dup.value], input.slug));
    }
    var u := Update(c.products, id, input, ids.value.0, ids.value.1);
    if u.Err? {
      return Err(u.error);
    }
    c.products := u.value;
    r := Ok(());
  }

  // ---------------------------------------------------------------------------
  // deleteProduct (productController.js:174-191)

  /**
   * The soft delete: `findById` through the find hook, then `isDeleted` and
   * status `archived` set and `save()`. The save validates every loaded path,
   * so a stored sale price that is not below the price refuses the delete;
   * the profit hook does nothing, since no price was modified.
   */
  function Deletion(ps: seq<Product>, id: nat): (r: Result<seq<Product>, Error>)
    ensures r.Ok? <==> id < |ps| && Visible(ps[id]) && SalePriceValid(ps[id].salePrice, ps[id].price)
    ensures !(id < |ps| && Visible(ps[id])) ==> r == Err(ProductNotFound)
    ensures id < |ps| && Visible(ps[id]) && !SalePriceValid(ps[id].salePrice, ps[id].price) ==>
              r == Err(Store(ValidationFailed))
    ensures r.Ok? ==> |r.value| == |ps| && !Visible(r.value[id])
    ensures r.Ok? ==> forall k :: 0 <= k < |ps| && k != id ==> r.value[k] == ps[k]
    ensures r.Ok? ==> r.value[id] == ps[id].(isDeleted := true, status := Archived)
  {
    if !(id < |ps| && Visible(ps[id])) then Err(ProductNotFound)
    else if !SalePriceValid(ps[id].salePrice, ps[id].price) then Err(Store(ValidationFailed))
    else Ok(ps[id := ps[id].(isDeleted := true, status := Archived)])
  }

  /** A deleted product is out of reach of a second delete. */
  lemma DeleteTwiceNotFound(ps: seq<Product>, id: nat)
    requires Deletion(ps, id).Ok?
    ensures Deletion(Deletion(ps, id).value, id) == Err(ProductNotFound)
  {
  }

  /**
   * The price cut stored as written leaves a visible product that can no
   * longer be deleted: its save fails the sale-price validator.
   */
  lemma PriceCutBlocksDelete()
    ensures UpdateAsWritten([SampleOnSale], 0, PriceCutRequest, 0, 0).Ok?
    ensures Visible(UpdateAsWritten([SampleOnSale], 0, PriceCutRequest, 0, 0).value[0])
    ensures Deletion(UpdateAsWritten([SampleOnSale], 0, PriceCutRequest, 0, 0).value, 0) == Err(Store(ValidationFailed))
  {
    PriceCutAsWritten();
  }

  method DeleteProduct(c: Catalog, id: nat) returns (r: Result<(), Error>)
    requires c.Valid()
    modifies c
    ensures c.Valid()
    ensures c.categories == old(c.categories) && c.subcategories == old(c.subcategories)
    ensures var d := Deletion(old(c.products), id);
            && (d.Err? ==> r == Err(d.error) && c.products == old(c.products))
            && (d.Ok? ==> r == Ok(()) && c.products == d.value)
  {
    if !(id < |c.products| && Visible(c.products[id])) {
      return Err(ProductNotFound);
    }
    if !SalePriceValid(c.products[id].salePrice, c.products[id].price) {
      return Err(Store(ValidationFailed));
    }
    var q := c.products[id].(isDeleted := true, status := Archived);
    ReplaceKeepsStoredValid(c.products, id, q);
    c.products := c.products[id := q];
    r := Ok(());
  }

  // ---------------------------------------------------------------------------
  // getAdminAllProducts (productController.js:197-209)

  /** `.sort({ createdAt: -1 })`: newest first. */
  function NewestProductsFirst(s: seq<Product>): (r: seq<Product>)
    ensures multiset(r) == multiset(s) && |r| == |s|
    ensures forall i, j :: 0 <= i < j < |r| ==> r[i].createdAt >= r[j].createdAt
  {
    var r := SortByKey(s, (p: Product) => -p.createdAt);
    assert forall i, j :: 0 <= i < j < |r| ==> -r[i].createdAt <= -r[j].createdAt;
    r
  }

  /**
   * As written: `select('+isDeleted +status')` only chooses fields, so the
   * find hook still hides the deleted and archived products the handler
   * means to list.
   */
  function AdminProductsAsWritten(ps: seq<Product>): (r: seq<Product>)
    ensures forall k :: 0 <= k < |r| ==> r[k] in ps && Visible(r[k])
    ensures forall i, j :: 0 <= i < j < |r| ==> r[i].createdAt >= r[j].createdAt
    ensures multiset(r) == multiset(Filter(ps, Visible))
  {
    var f := Filter(ps, Visible);
    var r := NewestProductsFirst(f);
    forall k | 0 <= k < |r| ensures r[k] in ps && Visible(r[k]) {
      assert r[k] in multiset(f);
      var j :| 0 <= j < |f| && f[j] == r[k];
    }
    r
  }

  /** The intended admin listing: every stored product, newest first. */
  function AdminProducts(ps: seq<Product>): (r: seq<Product>)
    ensures multiset(r) == multiset(ps)
    ensures forall i, j :: 0 <= i < j < |r| ==> r[i].createdAt >= r[j].createdAt
  {
    NewestProductsFirst(ps)
  }

  /** A soft-deleted product is missing from the listing as written and present in the intended one. */
  lemma AdminListingHidesDeletedProduct(ps: seq<Product>, id: nat)
    requires id < |ps| && ps[id].isDeleted
    ensures ps[id] !in AdminProductsAsWritten(ps)
    ensures ps[id] in AdminProducts(ps)
  {
    assert ps[id] in multiset(ps);
  }

  // ---------------------------------------------------------------------------
  // getAllProducts (productController.js:220-283)

  /** The query string; an empty string stands for an absent or empty parameter. */
  datatype ListQuery = ListQuery(category: string, subcategory: string, search: string, sort: string, page: int, limit: int)

  datatype Pagination = Pagination(currentPage: int, totalPages: Option<int>, totalProducts: nat, limit: int)

  datatype ProductPage = ProductPage(products: seq<Product>, pagination: Pagination)

  /** `Category.findOne({ slug })` among visible categories. */
  function CategoryBySlug(cs: seq<Category>, slug: string): (r: Option<nat>)
    ensures r.Some? ==> r.value < |cs| && !cs[r.value].isDeleted && cs[r.value].slug == NormalizeKey(slug)
    ensures r.None? <==> forall k :: 0 <= k < |cs| ==> cs[k].isDeleted || cs[k].slug != NormalizeKey(slug)
  {
    FindFirst(cs, (c: Category) => !c.isDeleted && c.slug == NormalizeKey(slug))
  }

  /** `Subcategory.findOne({ slug })`: any visible subcategory, whatever its parent. */
  function SubcategoryBySlug(ss: seq<Subcategory>, slug: string): (r: Option<nat>)
    ensures r.Some? ==> r.value < |ss| && !ss[r.value].isDeleted && ss[r.value].slug == NormalizeKey(slug)
    ensures r.None? <==> forall k :: 0 <= k < |ss| ==> ss[k].isDeleted || ss[k].slug != NormalizeKey(slug)
  {
    FindFirst(ss, (s: Subcategory) => !s.isDeleted && s.slug == NormalizeKey(slug))
  }

  /** The category filter: only set when the parameter is given and names a visible category. */
  function CategoryFilter(cs: seq<Category>, q: ListQuery): Option<nat> {
    if q.category == "" then None else CategoryBySlug(cs, q.category)
  }

  function SubcategoryFilter(ss: seq<Subcategory>, q: ListQuery): Option<nat> {
    if q.subcategory == "" then None else SubcategoryBySlug(ss, q.subcategory)
  }

  /**
   * The query document built by the handler: active status, the text search
   * (the regular-expression match is the parameter `matches`), and the
   * category filters that were resolved.
   */
  predicate QueryMatches(p: Product, q: ListQuery, cat: Option<nat>, sub: Option<nat>, matches: Product -> bool) {
    && p.status == Active
    && (q.search == "" || matches(p))
    && (cat.None? || p.category == cat.value)
    && (sub.None? || p.subcategory == sub.value)
  }

  /** What `find(query)` returns: the query plus the soft-delete hook. */
  function Found(ps: seq<Product>, q: ListQuery, cat: Option<nat>, sub: Option<nat>, matches: Product -> bool)
    : (r: seq<Product>)
    ensures forall k :: 0 <= k < |r| ==> r[k] in ps && Visible(r[k]) && QueryMatches(r[k], q, cat, sub, matches)
    ensures forall k :: 0 <= k < |ps| && Visible(ps[k]) && QueryMatches(ps[k], q, cat, sub, matches) ==> ps[k] in r
  {
    Filter(ps, (p: Product) => Visible(p) && QueryMatches(p, q, cat, sub, matches))
  }

  /** `countDocuments(query)`: the query alone, without the soft-delete hook. */
  function Total(ps: seq<Product>, q: ListQuery, cat: Option<nat>, sub: Option<nat>, matches: Product -> bool): nat {
    Count(ps, (p: Product) => QueryMatches(p, q, cat, sub, matches))
  }

  /** The sort key: `price` ascending, `price` descending, or newest first. */
  function SortKey(p: Product, sort: string): int {
    if sort == "price_asc" then p.price
    else if sort == "price_desc" then -p.price
    else -p.createdAt
  }

  function SortProducts(s: seq<Product>, sort: string): (r: seq<Product>)
    ensures multiset(r) == multiset(s) && |r| == |s|
    ensures sort == "price_asc" ==> forall i, j :: 0 <= i < j < |r| ==> r[i].price <= r[j].price
    ensures sort == "price_desc" ==> forall i, j :: 0 <= i < j < |r| ==> r[i].price >= r[j].price
    ensures sort != "price_asc" && sort != "price_desc" ==>
      forall i, j :: 0 <= i < j < |r| ==> r[i].createdAt >= r[j].createdAt
  {
    var r := SortByKey(s, (p: Product) => SortKey(p, sort));
    assert forall i, j :: 0 <= i < j < |r| ==> SortKey(r[i], sort) <= SortKey(r[j], sort);
    r
  }

  /** `.skip(skip).limit(limit)`: a limit of 0 takes everything, a negative limit takes its absolute value. */
  function Window<T>(s: seq<T>, skip: nat, limit: int): (r: seq<T>)
    ensures skip >= |s| ==> r == []
    ensures skip < |s| ==> var n := if limit == 0 || |s| - skip <= Abs(limit) then |s| - skip else Abs(limit);
                           r == s[skip..skip + n]
    ensures limit != 0 ==> |r| <= Abs(limit)
  {
    if skip >= |s| then []
    else if limit == 0 || |s| - skip <= Abs(limit) then s[skip..]
    else s[skip..skip + Abs(limit)]
  }

  function Abs(x: int): (r: nat)
    ensures r == x || r == -x
  {
    if x < 0 then -x else x
  }

  /** `Math.ceil(total / limit)`; `None` when the division by a zero limit gives no number. */
  function TotalPages(total: nat, limit: int): (r: Option<int>)
    ensures r.None? <==> limit == 0
    ensures limit > 0 ==> r.value * limit >= total && (r.value - 1) * limit < total
    ensures limit < 0 ==> r.value * limit <= total && (r.value - 1) * limit > total
  {
    if limit == 0 then None
    else if limit > 0 then Some((total + limit - 1) / limit)
    else
      var q := total / -limit;
      assert q * -limit <= total < (q + 1) * -limit;
      assert -q * limit == q * -limit && (-q - 1) * limit == (q + 1) * -limit;
      Some(-q)
  }

  function GetAllProducts(cs: seq<Category>, ss: seq<Subcategory>, ps: seq<Product>, q: ListQuery, matches: Product -> bool)
    : (r: Result<ProductPage, Error>)
    ensures r.Err? <==> (q.page - 1) * q.limit < 0
    ensures r.Err? ==> r.error == NegativeSkip
    ensures r.Ok? ==>
      var cat := CategoryFilter(cs, q); var sub := SubcategoryFilter(ss, q);
      && r.value.pagination == Pagination(q.page, TotalPages(Total(ps, q, cat, sub, matches), q.limit),
                                          Total(ps, q, cat, sub, matches), q.limit)
      && r.value.products == Window(SortProducts(Found(ps, q, cat, sub, matches), q.sort), (q.page - 1) * q.limit, q.limit)
  {
    var skip := (q.page - 1) * q.limit;
    if skip < 0 then Err(NegativeSkip)
    else
      var cat := CategoryFilter(cs, q);
      var sub := SubcategoryFilter(ss, q);
      var total := Total(ps, q, cat, sub, matches);
      Ok(ProductPage(Window(SortProducts(Found(ps, q, cat, sub, matches), q.sort), skip, q.limit),
                     Pagination(q.page, TotalPages(total, q.limit), total, q.limit)))
  }

  /** Every listed product is visible, active, and passes every filter that was resolved. */
  lemma ListedProductsMatch(cs: seq<Category>, ss: seq<Subcategory>, ps: seq<Product>, q: ListQuery, matches: Product -> bool)
    requires GetAllProducts(cs, ss, ps, q, matches).Ok?
    ensures var page := GetAllProducts(cs, ss, ps, q, matches).value.products;
      forall k :: 0 <= k < |page| ==>
        && page[k] in ps && Visible(page[k]) && page[k].status == Active
        && (q.search != "" ==> matches(page[k]))
        && (CategoryFilter(cs, q).Some? ==> page[k].category == CategoryFilter(cs, q).value)
        && (SubcategoryFilter(ss, q).Some? ==> page[k].subcategory == SubcategoryFilter(ss, q).value)
  {
    var cat := CategoryFilter(cs, q);
    var sub := SubcategoryFilter(ss, q);
    var found := Found(ps, q, cat, sub, matches);
    PageWithin(SortProducts(found, q.sort), found, (q.page - 1) * q.limit, q.limit);
  }

  /** A window of a permutation of `found` holds only elements of `found`. */
  lemma PageWithin(sorted: seq<Product>, found: seq<Product>, skip: nat, limit: int)
    requires multiset(sorted) == multiset(found)
    ensures forall k :: 0 <= k < |Window(sorted, skip, limit)| ==> Window(sorted, skip, limit)[k] in found
  {
    var page := Window(sorted, skip, limit);
    forall k | 0 <= k < |page| ensures page[k] in found {
      assert page[k] == sorted[skip + k];
      assert sorted[skip + k] in multiset(sorted);
    }
  }

  /** A category parameter that names no visible category filters nothing. */
  lemma UnknownCategoryIgnored(cs: seq<Category>, q: ListQuery)
    requires forall k :: 0 <= k < |cs| ==> cs[k].isDeleted || cs[k].slug != NormalizeKey(q.category)
    ensures CategoryFilter(cs, q).None?
  {
  }

  lemma {:induction false} CountSame<T>(s: seq<T>, p: T -> bool, p': T -> bool)
    requires forall k :: 0 <= k < |s| ==> (p(s[k]) <==> p'(s[k]))
    ensures Count(s, p) == Count(s, p')
  {
    if s != [] {
      var init := s[..|s| - 1];
      assert forall k :: 0 <= k < |init| ==> init[k] == s[k];
      CountSame(init, p, p');
    }
  }

  /**
   * `countDocuments` skips the soft-delete hook, yet it counts exactly the
   * products `find` returns, because a deleted product is always archived
   * and the query asks for active ones.
   */
  lemma TotalCountsFound(ps: seq<Product>, q: ListQuery, cat: Option<nat>, sub: Option<nat>, matches: Product -> bool)
    requires forall i :: 0 <= i < |ps| && ps[i].isDeleted ==> ps[i].status == Archived
    ensures Total(ps, q, cat, sub, matches) == |Found(ps, q, cat, sub, matches)|
  {
    CountSame(ps, (p: Product) => QueryMatches(p, q, cat, sub, matches),
                  (p: Product) => Visible(p) && QueryMatches(p, q, cat, sub, matches));
  }

  // ---------------------------------------------------------------------------
  // getProductBySlug (productController.js:289-313)

  predicate ActiveWithSlug(p: Product, slug: string) {
    Visible(p) && p.status == Active && p.slug == NormalizeKey(slug)
  }

  predicate ActiveWithProductId(p: Product, productId: string) {
    Visible(p) && p.status == Active && p.productId == Trim(productId)
  }

  /** The first active product with the slug, else the first active product whose `productId` is the parameter. */
  function GetProductBySlug(ps: seq<Product>, slug: string): (r: Result<nat, Error>)
    ensures r.Ok? ==> r.value < |ps| && Visible(ps[r.value]) && ps[r.value].status == Active
    ensures r.Ok? ==> ActiveWithSlug(ps[r.value], slug)
                      || (ActiveWithProductId(ps[r.value], slug) && forall k :: 0 <= k < |ps| ==> !ActiveWithSlug(ps[k], slug))
    ensures (exists k :: 0 <= k < |ps| && ActiveWithSlug(ps[k], slug)) ==> r.Ok? && ActiveWithSlug(ps[r.value], slug)
    ensures r.Err? <==> forall k :: 0 <= k < |ps| ==> !ActiveWithSlug(ps[k], slug) && !ActiveWithProductId(ps[k], slug)
    ensures r.Err? ==> r.error == ProductNotFound
  {
    match FindFirst(ps, (p: Product) => ActiveWithSlug(p, slug))
    case Some(i) => Ok(i)
    case None =>
      match FindFirst(ps, (p: Product) => ActiveWithProductId(p, slug))
      case Some(i) => Ok(i)
      case None => Err(ProductNotFound)
  }
}
