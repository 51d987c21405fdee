/**
 * The category and subcategory handlers of the shop
 * (src/controllers/categoryController.js). Every handler first asks the
 * visible documents whether the slug is taken, then lets the store validate
 * and index the write; deletion only sets `isDeleted`.
 */
module NcbdCategories {
  import opened Common
  import opened Sorting
  import opened NcbdCatalog

  datatype Error =
    | SlugTaken                  // 409 from `checkSlugConflict`
    | CategoryNotFound           // 404
    | ParentNotFound             // 404
    | SubcategoryNotFound        // 404
    | HasActiveSubcategories     // 400
    | Store(failure: StoreFailure)

  function ErrorStatus(e: Error): (code: nat)
    ensures e.SlugTaken? ==> code == 409
    ensures (e.CategoryNotFound? || e.ParentNotFound? || e.SubcategoryNotFound?) <==> code == 404
    ensures e.HasActiveSubcategories? ==> code == 400
    ensures e.Store? ==> code == StoreFailureStatus(e.failure)
  {
    match e
    case SlugTaken => 409
    case CategoryNotFound => 404
    case ParentNotFound => 404
    case SubcategoryNotFound => 404
    case HasActiveSubcategories => 400
    case Store(f) => StoreFailureStatus(f)
  }

  /**
   * `checkSlugConflict`: a visible document other than `exclude` already has
   * the slug. The query value passes through the slug setters first.
   */
  predicate SlugConflict(ks: seq<SlugKey>, slug: string, exclude: Option<nat>) {
    exists j :: 0 <= j < |ks| && !ks[j].isDeleted && ks[j].slug == NormalizeKey(slug)
                && (exclude.None? || j != exclude.value)
  }

  /** Re-submitting a document's own slug in an update is no conflict. */
  lemma OwnSlugNoConflict(ks: seq<SlugKey>, id: nat, slug: string)
    requires SlugsUnique(ks) && id < |ks| && ks[id].slug == NormalizeKey(slug)
    ensures !SlugConflict(ks, slug, Some(id))
  {
  }

  /**
   * The conflict check only sees visible documents while the unique index
   * sees all of them: the slug of a soft-deleted document passes the check
   * and the write is then refused with a duplicate key.
   */
  lemma DeletedSlugReachesIndex(ks: seq<SlugKey>, id: nat, slug: string)
    requires SlugsUnique(ks) && id < |ks| && ks[id].isDeleted && ks[id].slug == NormalizeKey(slug)
    ensures !SlugConflict(ks, slug, None)
    ensures !SlugFree(ks, NormalizeKey(slug), -1)
  {
  }

  /** A slug that conflicts is also refused by the index, whatever is excluded. */
  lemma ConflictImpliesTaken(ks: seq<SlugKey>, slug: string, self: nat)
    requires SlugConflict(ks, slug, Some(self))
    ensures !SlugFree(ks, NormalizeKey(slug), self)
  {
  }

  /** The `countDocuments` filter of `deleteCategory`: subcategories of `id` that are not deleted. */
  function ActiveSubcategoryCount(ss: seq<Subcategory>, id: nat): (n: nat)
    ensures n == 0 <==> forall k :: 0 <= k < |ss| ==> !(ss[k].category == id && !ss[k].isDeleted)
  {
    CountZeroIff(ss, (s: Subcategory) => s.category == id && !s.isDeleted);
    Count(ss, (s: Subcategory) => s.category == id && !s.isDeleted)
  }

  lemma {:induction false} CountZeroIff<T>(s: seq<T>, p: T -> bool)
    ensures Count(s, p) == 0 <==> forall k :: 0 <= k < |s| ==> !p(s[k])
  {
    if s != [] {
      var init := s[..|s| - 1];
      CountZeroIff(init, p);
      assert forall k :: 0 <= k < |init| ==> init[k] == s[k];
    }
  }

  predicate DocPresent(d: Category) {
    TitlesAndSlugPresent(d.titleEn, d.titleBn, d.slug)
  }

  predicate SubDocPresent(d: Subcategory) {
    TitlesAndSlugPresent(d.titleEn, d.titleBn, d.slug)
  }

  /** createCategory (categoryController.js:27-40). */
  method CreateCategory(c: Catalog, titleEn: string, titleBn: string, slug: string) returns (r: Result<nat, Error>)
    requires c.Valid()
    modifies c
    ensures c.Valid()
    ensures c.subcategories == old(c.subcategories) && c.products == old(c.products)
    ensures SlugConflict(SlugKeys(old(c.categories), CategoryKey), slug, None) ==> r == Err(SlugTaken)
    ensures !SlugConflict(SlugKeys(old(c.categories), CategoryKey), slug, None) && !DocPresent(CategoryDoc(titleEn, titleBn, slug))
            ==> r == Err(Store(ValidationFailed))
    ensures r.Ok? <==> !SlugConflict(SlugKeys(old(c.categories), CategoryKey), slug, None) && DocPresent(CategoryDoc(titleEn, titleBn, slug))
                       && SlugFree(SlugKeys(old(c.categories), CategoryKey), CategoryDoc(titleEn, titleBn, slug).slug, -1)
    ensures r.Err? ==> r.error in {SlugTaken, Store(ValidationFailed), Store(DuplicateKey)}
    ensures r.Ok? ==> r.value == |old(c.categories)| && c.categories == old(c.categories) + [CategoryDoc(titleEn, titleBn, slug)]
    ensures r.Err? ==> c.categories == old(c.categories)
  {
    var ks := SlugKeys(c.categories, CategoryKey);
    if SlugConflict(ks, slug, None) {
      return Err(SlugTaken);
    }
    var d := CategoryDoc(titleEn, titleBn, slug);
    if !DocPresent(d) {
      return Err(Store(ValidationFailed));
    }
    if !SlugFree(ks, d.slug, -1) {
      return Err(Store(DuplicateKey));
    }
    AppendKeepsSlugsUnique(ks, SlugKey(d.slug, d.isDeleted));
    SlugKeysAppend(c.categories, d, CategoryKey);
    r := Ok(|c.categories|);
    c.categories := c.categories + [d];
  }

  /**
   * updateCategory (categoryController.js:45-66): the conflict check, then
   * `findByIdAndUpdate` with validators, which validates before looking the
   * document up among the visible ones.
   */
  method UpdateCategory(c: Catalog, id: nat, titleEn: string, titleBn: string, slug: string) returns (r: Result<(), Error>)
    requires c.Valid()
    modifies c
    ensures c.Valid()
    ensures c.subcategories == old(c.subcategories) && c.products == old(c.products)
    ensures SlugConflict(SlugKeys(old(c.categories), CategoryKey), slug, Some(id)) ==> r == Err(SlugTaken)
    ensures !SlugConflict(SlugKeys(old(c.categories), CategoryKey), slug, Some(id)) && !DocPresent(CategoryDoc(titleEn, titleBn, slug))
            ==> r == Err(Store(ValidationFailed))
    ensures !SlugConflict(SlugKeys(old(c.categories), CategoryKey), slug, Some(id)) && DocPresent(CategoryDoc(titleEn, titleBn, slug))
            && !CategoryFound(old(c.categories), id)
            ==> r == Err(CategoryNotFound)
    ensures r.Ok? <==> !SlugConflict(SlugKeys(old(c.categories), CategoryKey), slug, Some(id)) && DocPresent(CategoryDoc(titleEn, titleBn, slug))
                       && CategoryFound(old(c.categories), id)
                       && SlugFree(SlugKeys(old(c.categories), CategoryKey), CategoryDoc(titleEn, titleBn, slug).slug, id)
    ensures r.Err? ==> r.error in {SlugTaken, Store(ValidationFailed), CategoryNotFound, Store(DuplicateKey)}
    ensures r.Ok? ==> c.categories == old(c.categories)[id := CategoryDoc(titleEn, titleBn, slug)]
    ensures r.Err? ==> c.categories == old(c.categories)
  {
    var ks := SlugKeys(c.categories, CategoryKey);
    if SlugConflict(ks, slug, Some(id)) {
      return Err(SlugTaken);
    }
    var d := CategoryDoc(titleEn, titleBn, slug);
    if !DocPresent(d) {
      return Err(Store(ValidationFailed));
    }
    if !CategoryFound(c.categories, id) {
      return Err(CategoryNotFound);
    }
    if !SlugFree(ks, d.slug, id) {
      return Err(Store(DuplicateKey));
    }
    ReplaceKeepsSlugsUnique(ks, id, SlugKey(d.slug, d.isDeleted));
    SlugKeysUpdate(c.categories, id, d, CategoryKey);
    c.categories := c.categories[id := d];
    r := Ok(());
  }

  /**
   * deleteCategory (categoryController.js:71-97): refused while a subcategory
   * that is not deleted points at it, even before the category is looked up.
   */
  method DeleteCategory(c: Catalog, id: nat) returns (r: Result<(), Error>)
    requires c.Valid()
    modifies c
    ensures c.Valid()
    ensures c.subcategories == old(c.subcategories) && c.products == old(c.products)
    ensures ActiveSubcategoryCount(old(c.subcategories), id) > 0 ==> r == Err(HasActiveSubcategories)
    ensures ActiveSubcategoryCount(old(c.subcategories), id) == 0 && !CategoryFound(old(c.categories), id) ==> r == Err(CategoryNotFound)
    ensures r.Ok? <==> ActiveSubcategoryCount(old(c.subcategories), id) == 0 && CategoryFound(old(c.categories), id)
    ensures r.Ok? ==> c.categories == old(c.categories)[id := old(c.categories)[id].(isDeleted := true)]
    ensures r.Ok? ==> !CategoryFound(c.categories, id)
    ensures r.Err? ==> c.categories == old(c.categories)
  {
    if ActiveSubcategoryCount(c.subcategories, id) > 0 {
      return Err(HasActiveSubcategories);
    }
    if !CategoryFound(c.categories, id) {
      return Err(CategoryNotFound);
    }
    var ks := SlugKeys(c.categories, CategoryKey);
    FlagKeepsSlugsUnique(ks, id);
    SlugKeysUpdate(c.categories, id, c.categories[id].(isDeleted := true), CategoryKey);
    c.categories := c.categories[id := c.categories[id].(isDeleted := true)];
    r := Ok(());
  }

  /** createSubcategory (categoryController.js:152-176): the parent is looked up before the slug. */
  method CreateSubcategory(c: Catalog, category: nat, titleEn: string, titleBn: string, slug: string) returns (r: Result<nat, Error>)
    requires c.Valid()
    modifies c
    ensures c.Valid()
    ensures c.categories == old(c.categories) && c.products == old(c.products)
    ensures !CategoryFound(old(c.categories), category) ==> r == Err(ParentNotFound)
    ensures CategoryFound(old(c.categories), category) && SlugConflict(SlugKeys(old(c.subcategories), SubcategoryKey), slug, None)
            ==> r == Err(SlugTaken)
    ensures CategoryFound(old(c.categories), category) && !SlugConflict(SlugKeys(old(c.subcategories), SubcategoryKey), slug, None)
            && !SubDocPresent(SubcategoryDoc(category, titleEn, titleBn, slug))
            ==> r == Err(Store(ValidationFailed))
    ensures r.Ok? <==> CategoryFound(old(c.categories), category) && !SlugConflict(SlugKeys(old(c.subcategories), SubcategoryKey), slug, None)
                       && SubDocPresent(SubcategoryDoc(category, titleEn, titleBn, slug))
                       && SlugFree(SlugKeys(old(c.subcategories), SubcategoryKey), SubcategoryDoc(category, titleEn, titleBn, slug).slug, -1)
    ensures r.Err? ==> r.error in {ParentNotFound, SlugTaken, Store(ValidationFailed), Store(DuplicateKey)}
    ensures r.Ok? ==> r.value == |old(c.subcategories)|
                      && c.subcategories == old(c.subcategories) + [SubcategoryDoc(category, titleEn, titleBn, slug)]
    ensures r.Err? ==> c.subcategories == old(c.subcategories)
  {
    if !CategoryFound(c.categories, category) {
      return Err(ParentNotFound);
    }
    var ks := SlugKeys(c.subcategories, SubcategoryKey);
    if SlugConflict(ks, slug, None) {
      return Err(SlugTaken);
    }
    var d := SubcategoryDoc(category, titleEn, titleBn, slug);
    if !SubDocPresent(d) {
      return Err(Store(ValidationFailed));
    }
    if !SlugFree(ks, d.slug, -1) {
      return Err(Store(DuplicateKey));
    }
    AppendKeepsSlugsUnique(ks, SlugKey(d.slug, d.isDeleted));
    SlugKeysAppend(c.subcategories, d, SubcategoryKey);
    r := Ok(|c.subcategories|);
    c.subcategories := c.subcategories + [d];
  }

  /** updateSubcategory (categoryController.js:181-209): slug first, then the parent, then the update. */
  method UpdateSubcategory(c: Catalog, id: nat, category: nat, titleEn: string, titleBn: string, slug: string)
    returns (r: Result<(), Error>)
    requires c.Valid()
    modifies c
    ensures c.Valid()
    ensures c.categories == old(c.categories) && c.products == old(c.products)
    ensures SlugConflict(SlugKeys(old(c.subcategories), SubcategoryKey), slug, Some(id)) ==> r == Err(SlugTaken)
    ensures !SlugConflict(SlugKeys(old(c.subcategories), SubcategoryKey), slug, Some(id)) && !CategoryFound(old(c.categories), category)
            ==> r == Err(ParentNotFound)
    ensures !SlugConflict(SlugKeys(old(c.subcategories), SubcategoryKey), slug, Some(id)) && CategoryFound(old(c.categories), category)
            && !SubDocPresent(SubcategoryDoc(category, titleEn, titleBn, slug))
            ==> r == Err(Store(ValidationFailed))
    ensures !SlugConflict(SlugKeys(old(c.subcategories), SubcategoryKey), slug, Some(id)) && CategoryFound(old(c.categories), category)
            && SubDocPresent(SubcategoryDoc(category, titleEn, titleBn, slug)) && !SubcategoryFound(old(c.subcategories), id)
            ==> r == Err(SubcategoryNotFound)
    ensures r.Ok? <==> !SlugConflict(SlugKeys(old(c.subcategories), SubcategoryKey), slug, Some(id)) && CategoryFound(old(c.categories), category)
                       && SubDocPresent(SubcategoryDoc(category, titleEn, titleBn, slug))
                       && SubcategoryFound(old(c.subcategories), id)
                       && SlugFree(SlugKeys(old(c.subcategories), SubcategoryKey), SubcategoryDoc(category, titleEn, titleBn, slug).slug, id)
    ensures r.Ok? ==> c.subcategories == old(c.subcategories)[id := SubcategoryDoc(category, titleEn, titleBn, slug)]
    ensures r.Err? ==> c.subcategories == old(c.subcategories)
  {
    var ks := SlugKeys(c.subcategories, SubcategoryKey);
    if SlugConflict(ks, slug, Some(id)) {
      return Err(SlugTaken);
    }
    if !CategoryFound(c.categories, category) {
      return Err(ParentNotFound);
    }
    var d := SubcategoryDoc(category, titleEn, titleBn, slug);
    if !SubDocPresent(d) {
      return Err(Store(ValidationFailed));
    }
    if !SubcategoryFound(c.subcategories, id) {
      return Err(SubcategoryNotFound);
    }
    if !SlugFree(ks, d.slug, id) {
      return Err(Store(DuplicateKey));
    }
    ReplaceKeepsSlugsUnique(ks, id, SlugKey(d.slug, d.isDeleted));
    SlugKeysUpdate(c.subcategories, id, d, SubcategoryKey);
    c.subcategories := c.subcategories[id := d];
    r := Ok(());
  }

  /** deleteSubcategory (categoryController.js:214-233): no check for products that use it. */
  method DeleteSubcategory(c: Catalog, id: nat) returns (r: Result<(), Error>)
    requires c.Valid()
    modifies c
    ensures c.Valid()
    ensures c.categories == old(c.categories) && c.products == old(c.products)
    ensures r.Ok? <==> SubcategoryFound(old(c.subcategories), id)
    ensures r.Err? ==> r.error == SubcategoryNotFound && c.subcategories == old(c.subcategories)
    ensures r.Ok? ==> c.subcategories == old(c.subcategories)[id := old(c.subcategories)[id].(isDeleted := true)]
  {
    if !SubcategoryFound(c.subcategories, id) {
      return Err(SubcategoryNotFound);
    }
    var ks := SlugKeys(c.subcategories, SubcategoryKey);
    FlagKeepsSlugsUnique(ks, id);
    SlugKeysUpdate(c.subcategories, id, c.subcategories[id].(isDeleted := true), SubcategoryKey);
    c.subcategories := c.subcategories[id := c.subcategories[id].(isDeleted := true)];
    r := Ok(());
  }

  /** A category of the public listing with the subcategories grouped under it. */
  datatype CategoryListing = CategoryListing(id: nat, category: Category, subcategories: seq<(nat, Subcategory)>)

  /** What `find()` returns under the soft-delete hook, with `_id`s. */
  function VisibleCategories(cs: seq<Category>): seq<(nat, Category)> {
    Filter(Numbered(cs), (e: (nat, Category)) => !e.1.isDeleted)
  }

  function VisibleSubcategories(ss: seq<Subcategory>): seq<(nat, Subcategory)> {
    Filter(Numbered(ss), (e: (nat, Subcategory)) => !e.1.isDeleted)
  }

  /** `.sort({ title_en: 1 })`. */
  function SortCategories(s: seq<(nat, Category)>): (r: seq<(nat, Category)>)
    ensures multiset(r) == multiset(s) && |r| == |s|
    ensures forall i, j :: 0 <= i < j < |r| ==> LexLe(r[i].1.titleEn, r[j].1.titleEn)
  {
    SortByString(s, (e: (nat, Category)) => e.1.titleEn)
  }

  function SortSubcategories(s: seq<(nat, Subcategory)>): (r: seq<(nat, Subcategory)>)
    ensures multiset(r) == multiset(s) && |r| == |s|
    ensures forall i, j :: 0 <= i < j < |r| ==> LexLe(r[i].1.titleEn, r[j].1.titleEn)
  {
    SortByString(s, (e: (nat, Subcategory)) => e.1.titleEn)
  }

  /** The visible categories by English title, with their `_id`s. */
  function SortedVisibleCategories(cs: seq<Category>): (r: seq<(nat, Category)>)
    ensures |r| == |VisibleCategories(cs)|
    ensures forall i, j :: 0 <= i < j < |r| ==> LexLe(r[i].1.titleEn, r[j].1.titleEn)
    ensures forall i :: 0 <= i < |r| ==> r[i].0 < |cs| && cs[r[i].0] == r[i].1 && !r[i].1.isDeleted
  {
    var visible := VisibleCategories(cs);
    var r := SortCategories(visible);
    forall i | 0 <= i < |r| ensures r[i].0 < |cs| && cs[r[i].0] == r[i].1 && !r[i].1.isDeleted {
      assert r[i] in multiset(visible);
    }
    r
  }

  lemma SortedVisibleCategoriesComplete(cs: seq<Category>, id: nat)
    requires CategoryFound(cs, id)
    ensures (id, cs[id]) in SortedVisibleCategories(cs)
  {
    assert Numbered(cs)[id] == (id, cs[id]);
    assert (id, cs[id]) in multiset(VisibleCategories(cs));
    assert (id, cs[id]) in multiset(SortCategories(VisibleCategories(cs)));
  }

  /** Every entry of `subs` is the visible subcategory stored under its `_id`. */
  predicate StoredVisible(ss: seq<Subcategory>, subs: seq<(nat, Subcategory)>) {
    forall i :: 0 <= i < |subs| ==> subs[i].0 < |ss| && ss[subs[i].0] == subs[i].1 && !subs[i].1.isDeleted
  }

  /** The visible subcategories by English title, with their `_id`s. */
  function SortedVisibleSubcategories(ss: seq<Subcategory>): (r: seq<(nat, Subcategory)>)
    ensures TitleOrdered(r)
    ensures StoredVisible(ss, r)
  {
    var visible := VisibleSubcategories(ss);
    var r := SortSubcategories(visible);
    forall i | 0 <= i < |r| ensures r[i].0 < |ss| && ss[r[i].0] == r[i].1 && !r[i].1.isDeleted {
      assert r[i] in multiset(visible);
    }
    r
  }

  lemma SortedVisibleSubcategoriesComplete(ss: seq<Subcategory>, sid: nat)
    requires SubcategoryFound(ss, sid)
    ensures (sid, ss[sid]) in SortedVisibleSubcategories(ss)
  {
    assert Numbered(ss)[sid] == (sid, ss[sid]);
    assert (sid, ss[sid]) in multiset(VisibleSubcategories(ss));
    assert (sid, ss[sid]) in multiset(SortSubcategories(VisibleSubcategories(ss)));
  }

  /** Subcategories in English-title order. */
  predicate TitleOrdered(s: seq<(nat, Subcategory)>) {
    forall i, j :: 0 <= i < j < |s| ==> LexLe(s[i].1.titleEn, s[j].1.titleEn)
  }

  /** The subcategories listed under category `id`: those whose parent it is, in the given order. */
  function SubsOf(subs: seq<(nat, Subcategory)>, id: nat): (r: seq<(nat, Subcategory)>)
    ensures forall k :: 0 <= k < |r| ==> r[k] in subs && r[k].1.category == id
  {
    Filter(subs, (s: (nat, Subcategory)) => s.1.category == id)
  }

  lemma SubsOfKeepsOrder(subs: seq<(nat, Subcategory)>, id: nat)
    requires TitleOrdered(subs)
    ensures TitleOrdered(SubsOf(subs, id))
  {
    FilterKeepsOrder(subs, (s: (nat, Subcategory)) => s.1.category == id,
                     (a: (nat, Subcategory), b: (nat, Subcategory)) => LexLe(a.1.titleEn, b.1.titleEn));
  }

  lemma SubsOfComplete(subs: seq<(nat, Subcategory)>, id: nat, e: (nat, Subcategory))
    requires e in subs && e.1.category == id
    ensures e in SubsOf(subs, id)
  {
    var k :| 0 <= k < |subs| && subs[k] == e;
  }

  /** Each category paired with the subcategories whose parent it is. */
  function Group(cats: seq<(nat, Category)>, subs: seq<(nat, Subcategory)>): (r: seq<CategoryListing>)
    ensures |r| == |cats|
    ensures forall i :: 0 <= i < |r| ==>
      r[i].id == cats[i].0 && r[i].category == cats[i].1 && r[i].subcategories == SubsOf(subs, cats[i].0)
  {
    seq(|cats|, i requires 0 <= i < |cats| => CategoryListing(cats[i].0, cats[i].1, SubsOf(subs, cats[i].0)))
  }

  /** `e` is the visible subcategory `ss[e.0]`, and its parent is `parent`. */
  predicate SubEntryOf(ss: seq<Subcategory>, e: (nat, Subcategory), parent: nat) {
    e.0 < |ss| && ss[e.0] == e.1 && !e.1.isDeleted && e.1.category == parent
  }

  /**
   * getAllCategories (categoryController.js:103-126): the visible categories
   * by English title, each carrying the visible subcategories whose parent it
   * is, also by English title.
   */
  function ListCategories(cs: seq<Category>, ss: seq<Subcategory>): (r: seq<CategoryListing>)
    ensures |r| == |VisibleCategories(cs)|
    ensures forall i, j :: 0 <= i < j < |r| ==> LexLe(r[i].category.titleEn, r[j].category.titleEn)
    ensures forall i :: 0 <= i < |r| ==> r[i].id < |cs| && cs[r[i].id] == r[i].category && !r[i].category.isDeleted
    ensures forall i, k :: 0 <= i < |r| && 0 <= k < |r[i].subcategories| ==>
      SubEntryOf(ss, r[i].subcategories[k], r[i].id)
    ensures forall i :: 0 <= i < |r| ==> TitleOrdered(r[i].subcategories)
  {
    var cats := SortedVisibleCategories(cs);
    var subs := SortedVisibleSubcategories(ss);
    var r := Group(cats, subs);
    GroupCategories(cs, cats, subs);
    GroupSubcategoriesOrdered(cats, subs);
    GroupSubcategoriesBelong(ss, cats, subs);
    r
  }

  lemma GroupCategories(cs: seq<Category>, cats: seq<(nat, Category)>, subs: seq<(nat, Subcategory)>)
    requires forall i, j :: 0 <= i < j < |cats| ==> LexLe(cats[i].1.titleEn, cats[j].1.titleEn)
    requires forall i :: 0 <= i < |cats| ==> cats[i].0 < |cs| && cs[cats[i].0] == cats[i].1 && !cats[i].1.isDeleted
    ensures var r := Group(cats, subs);
      && (forall i, j :: 0 <= i < j < |r| ==> LexLe(r[i].category.titleEn, r[j].category.titleEn))
      && (forall i :: 0 <= i < |r| ==> r[i].id < |cs| && cs[r[i].id] == r[i].category && !r[i].category.isDeleted)
  {
    var r := Group(cats, subs);
    forall i, j | 0 <= i < j < |r| ensures LexLe(r[i].category.titleEn, r[j].category.titleEn) {
      assert r[i].category == cats[i].1 && r[j].category == cats[j].1;
    }
  }

  lemma GroupSubcategoriesOrdered(cats: seq<(nat, Category)>, subs: seq<(nat, Subcategory)>)
    requires TitleOrdered(subs)
    ensures forall i :: 0 <= i < |Group(cats, subs)| ==> TitleOrdered(Group(cats, subs)[i].subcategories)
  {
    forall i | 0 <= i < |cats| ensures TitleOrdered(SubsOf(subs, cats[i].0)) {
      SubsOfKeepsOrder(subs, cats[i].0);
    }
  }

  lemma GroupSubcategoriesBelong(ss: seq<Subcategory>, cats: seq<(nat, Category)>, subs: seq<(nat, Subcategory)>)
    requires StoredVisible(ss, subs)
    ensures forall i, k :: 0 <= i < |Group(cats, subs)| && 0 <= k < |Group(cats, subs)[i].subcategories| ==>
      SubEntryOf(ss, Group(cats, subs)[i].subcategories[k], Group(cats, subs)[i].id)
  {
    var r := Group(cats, subs);
    forall i, k | 0 <= i < |r| && 0 <= k < |r[i].subcategories|
      ensures SubEntryOf(ss, r[i].subcategories[k], r[i].id)
    {
      var e := r[i].subcategories[k];
      assert e in subs && e.1.category == r[i].id;
      var m :| 0 <= m < |subs| && subs[m] == e;
    }
  }

  /** Every visible category is listed. */
  lemma ListCategoriesShowsCategory(cs: seq<Category>, ss: seq<Subcategory>, id: nat)
    requires CategoryFound(cs, id)
    ensures exists i :: 0 <= i < |ListCategories(cs, ss)| && ListCategories(cs, ss)[i].id == id
  {
    var cats := SortedVisibleCategories(cs);
    SortedVisibleCategoriesComplete(cs, id);
    var i :| 0 <= i < |cats| && cats[i] == (id, cs[id]);
    assert ListCategories(cs, ss)[i].id == id;
  }

  /** Every visible subcategory is listed under its parent, wherever that parent is listed. */
  lemma ListCategoriesShowsSubcategory(cs: seq<Category>, ss: seq<Subcategory>, i: nat, sid: nat)
    requires i < |ListCategories(cs, ss)|
    requires SubcategoryFound(ss, sid) && ss[sid].category == ListCategories(cs, ss)[i].id
    ensures (sid, ss[sid]) in ListCategories(cs, ss)[i].subcategories
  {
    var cats := SortedVisibleCategories(cs);
    var subs := SortedVisibleSubcategories(ss);
    SortedVisibleSubcategoriesComplete(ss, sid);
    SubsOfComplete(subs, cats[i].0, (sid, ss[sid]));
  }

  /** A subcategory whose parent is deleted is listed nowhere. */
  lemma OrphanedSubcategoryHidden(cs: seq<Category>, ss: seq<Subcategory>, sid: nat)
    requires sid < |ss| && ss[sid].category < |cs| && cs[ss[sid].category].isDeleted
    ensures forall l :: l in ListCategories(cs, ss) ==> (sid, ss[sid]) !in l.subcategories
  {
    var r := ListCategories(cs, ss);
    forall l | l in r ensures (sid, ss[sid]) !in l.subcategories {
      var i :| 0 <= i < |r| && r[i] == l;
      assert ss[sid].category != l.id;
    }
  }
  /** A listing read backwards: with creation times that follow insertion, `createdAt: -1` is the reverse of the `_id` order. */
  function NewestFirst(s: seq<(nat, Category)>): (r: seq<(nat, Category)>)
    ensures |r| == |s| && forall i :: 0 <= i < |r| ==> r[i] == s[|s| - 1 - i]
  {
    seq(|s|, i requires 0 <= i < |s| => s[|s| - 1 - i])
  }

  /** Ascending `_id`s, as the store's natural order has them. */
  predicate IdsAscending(s: seq<(nat, Category)>) {
    forall i, j :: 0 <= i < j < |s| ==> s[i].0 < s[j].0
  }

  lemma VisibleCategoriesAscending(cs: seq<Category>)
    ensures IdsAscending(VisibleCategories(cs))
  {
    FilterKeepsOrder(Numbered(cs), (e: (nat, Category)) => !e.1.isDeleted,
                     (a: (nat, Category), b: (nat, Category)) => a.0 < b.0);
  }

  /**
   * getAdminAllCategories (categoryController.js:132-142) as written:
   * `select('+isDeleted')` only chooses fields, so the soft-delete hook
   * still hides the deleted categories the handler means to list.
   */
  function AdminCategoriesAsWritten(cs: seq<Category>): (r: seq<(nat, Category)>)
    ensures forall i :: 0 <= i < |r| ==> r[i].0 < |cs| && cs[r[i].0] == r[i].1 && !r[i].1.isDeleted
    ensures forall i, j :: 0 <= i < j < |r| ==> r[i].0 > r[j].0
    ensures forall id: nat :: CategoryFound(cs, id) ==> (id, cs[id]) in r
  {
    VisibleCategoriesAscending(cs);
    var v := VisibleCategories(cs);
    var r := NewestFirst(v);
    forall id: nat | CategoryFound(cs, id) ensures (id, cs[id]) in r {
      assert Numbered(cs)[id] == (id, cs[id]);
      assert (id, cs[id]) in multiset(v);
      var j :| 0 <= j < |v| && v[j] == (id, cs[id]);
      assert r[|v| - 1 - j] == v[j];
    }
    r
  }

  /** The intended admin listing: every stored category, deleted or not, newest first. */
  function AdminCategories(cs: seq<Category>): (r: seq<(nat, Category)>)
    ensures |r| == |cs|
    ensures forall i :: 0 <= i < |r| ==> r[i].0 < |cs| && cs[r[i].0] == r[i].1
    ensures forall i, j :: 0 <= i < j < |r| ==> r[i].0 > r[j].0
  {
    NewestFirst(Numbered(cs))
  }

  /** A soft-deleted category is missing from the listing as written and present in the intended one. */
  lemma AdminListingHidesDeleted(cs: seq<Category>, id: nat)
    requires id < |cs| && cs[id].isDeleted
    ensures (id, cs[id]) !in AdminCategoriesAsWritten(cs)
    ensures (id, cs[id]) in AdminCategories(cs)
  {
    var r := AdminCategories(cs);
    assert r[|cs| - 1 - id] == (id, cs[id]);
  }

  /**
   * getAllSubcategories and getSubcategoriesForCategory
   * (categoryController.js:239-270): the visible subcategories, of one
   * parent when one is given, by English title.
   */
  function ListSubcategories(ss: seq<Subcategory>, parent: Option<nat>): (r: seq<(nat, Subcategory)>)
    ensures TitleOrdered(r) && StoredVisible(ss, r)
    ensures parent.Some? ==> forall k :: 0 <= k < |r| ==> r[k].1.category == parent.value
  {
    var subs := SortedVisibleSubcategories(ss);
    if parent.None? then subs
    else
      SubsOfKeepsOrder(subs, parent.value);
      SubsOf(subs, parent.value)
  }

  /** Every visible subcategory of the parent asked for is listed. */
  lemma ListSubcategoriesComplete(ss: seq<Subcategory>, parent: Option<nat>, sid: nat)
    requires SubcategoryFound(ss, sid) && (parent.None? || ss[sid].category == parent.value)
    ensures (sid, ss[sid]) in ListSubcategories(ss, parent)
  {
    SortedVisibleSubcategoriesComplete(ss, sid);
    if parent.Some? {
      SubsOfComplete(SortedVisibleSubcategories(ss), parent.value, (sid, ss[sid]));
    }
  }
}
