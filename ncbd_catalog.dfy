/**
 * The catalogue collections of the customer-facing shop: categories,
 * subcategories (src/models/Category.js, src/models/Subcategory.js) and
 * products (src/models/Product.js). A document's `_id` is its position in
 * its collection; nothing here is ever removed, only flagged `isDeleted`.
 */
module NcbdCatalog {
  import opened Common
  import opened NcbdProduct

  datatype Category = Category(titleEn: string, titleBn: string, slug: string, isDeleted: bool)

  datatype Subcategory = Subcategory(category: nat, titleEn: string, titleBn: string, slug: string, isDeleted: bool)

  /** The slug and visibility of a document, the part `checkSlugConflict` looks at. */
  datatype SlugKey = SlugKey(slug: string, isDeleted: bool)

  /** What the slug index sees of each stored document, through `key`. */
  function SlugKeys<T>(docs: seq<T>, key: T -> SlugKey): (ks: seq<SlugKey>)
    ensures |ks| == |docs|
    ensures forall i :: 0 <= i < |docs| ==> ks[i] == key(docs[i])
  {
    seq(|docs|, i requires 0 <= i < |docs| => key(docs[i]))
  }

  function CategoryKey(d: Category): SlugKey {
    SlugKey(d.slug, d.isDeleted)
  }

  function SubcategoryKey(d: Subcategory): SlugKey {
    SlugKey(d.slug, d.isDeleted)
  }

  lemma SlugKeysAppend<T>(docs: seq<T>, d: T, key: T -> SlugKey)
    ensures SlugKeys(docs + [d], key) == SlugKeys(docs, key) + [key(d)]
  {
  }

  lemma SlugKeysUpdate<T>(docs: seq<T>, id: nat, d: T, key: T -> SlugKey)
    requires id < |docs|
    ensures SlugKeys(docs[id := d], key) == SlugKeys(docs, key)[id := key(d)]
  {
  }

  /** A `slug` unique index: no two documents, deleted or not, share a slug. */
  predicate SlugsUnique(ks: seq<SlugKey>) {
    forall i, j :: 0 <= i < j < |ks| ==> ks[i].slug != ks[j].slug
  }

  /** The unique index admits `slug` at position `self` (a new document when `self` is out of range). */
  predicate SlugFree(ks: seq<SlugKey>, slug: string, self: int) {
    forall j :: 0 <= j < |ks| && j != self ==> ks[j].slug != slug
  }

  /** The `/^find/` hook of both category schemas. */
  predicate CategoryFound(cs: seq<Category>, id: nat) {
    id < |cs| && !cs[id].isDeleted
  }

  predicate SubcategoryFound(ss: seq<Subcategory>, id: nat) {
    id < |ss| && !ss[id].isDeleted
  }

  /** Setters of both category schemas: titles trimmed, slug trimmed and lower-cased. */
  function CategoryDoc(titleEn: string, titleBn: string, slug: string): Category {
    Category(Trim(titleEn), Trim(titleBn), NormalizeKey(slug), false)
  }

  function SubcategoryDoc(category: nat, titleEn: string, titleBn: string, slug: string): Subcategory {
    Subcategory(category, Trim(titleEn), Trim(titleBn), NormalizeKey(slug), false)
  }

  /** The `required` validators of both category schemas. */
  predicate TitlesAndSlugPresent(titleEn: string, titleBn: string, slug: string) {
    titleEn != [] && titleBn != [] && slug != []
  }

  lemma {:induction false} ReplaceKeepsSlugsUnique(ks: seq<SlugKey>, id: nat, k: SlugKey)
    requires id < |ks| && SlugsUnique(ks) && SlugFree(ks, k.slug, id)
    ensures SlugsUnique(ks[id := k])
  {
  }

  lemma {:induction false} AppendKeepsSlugsUnique(ks: seq<SlugKey>, k: SlugKey)
    requires SlugsUnique(ks) && SlugFree(ks, k.slug, -1)
    ensures SlugsUnique(ks + [k])
  {
  }

  /** Soft deletion keeps every slug where it was, so it keeps the index unique. */
  lemma {:induction false} FlagKeepsSlugsUnique(ks: seq<SlugKey>, id: nat)
    requires id < |ks| && SlugsUnique(ks)
    ensures SlugsUnique(ks[id := ks[id].(isDeleted := true)])
  {
  }

  class Catalog {
    var categories: seq<Category>
    var subcategories: seq<Subcategory>
    var products: seq<Product>

    /** The unique indexes of all three collections hold, and the stored products passed their schema. */
    ghost predicate Valid()
      reads this
    {
      && SlugsUnique(SlugKeys(categories, CategoryKey))
      && SlugsUnique(SlugKeys(subcategories, SubcategoryKey))
      && StoredProductsValid(products)
    }

    constructor ()
      ensures Valid()
      ensures categories == [] && subcategories == [] && products == []
    {
      categories, subcategories, products := [], [], [];
    }
  }
}
