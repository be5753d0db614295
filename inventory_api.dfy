/** POST /api/admin/inventory (src/app/api/admin/inventory/route.ts): an admin creates a product
    with its variants in one nested insert, after `createProductSchema` and a slug lookup. */
module InventoryApi {
  import opened Base
  import opened Schemas
  import opened Store
  import InventoryAdd

  /** One element of `variants`; `lowStockAt` is None when absent. */
  datatype VariantBody = VariantBody(
    size: string,
    color: string,
    colorHex: Option<string>,
    sku: string,
    stock: int,
    lowStockAt: Option<int>)

  /** The request body. Optional fields are None when absent; `discountedPrice` is None when
      absent or null; `tags` and `isFeatured` are None when absent (zod supplies their defaults). */
  datatype ProductBody = ProductBody(
    name: string,
    slug: string,
    description: string,
    material: Option<string>,
    careInstructions: Option<string>,
    categoryId: string,
    basePrice: int,
    discountedPrice: Option<int>,
    images: seq<string>,
    tags: Option<seq<string>>,
    isFeatured: Option<bool>,
    metaTitle: Option<string>,
    metaDescription: Option<string>,
    variants: seq<VariantBody>)

  const PositiveMessage := "Number must be greater than 0"
  /** The reply text exactly as the route spells it, with the em dash stored as the three
      characters U+00E2 U+20AC U+201D. */
  const SlugTaken := "Slug already exists \U{E2}\U{20AC}\U{201D} try a different product name"
  const CreateFailed := "Failed to create product"

  predicate VariantValid(v: VariantBody) {
    v.stock >= 0 && (v.lowStockAt.None? || v.lowStockAt.value >= 0)
  }

  predicate ProductValid(b: ProductBody) {
    |b.name| >= 1 && |b.slug| >= 1 && |b.description| >= 1 && |b.categoryId| >= 1 &&
    b.basePrice > 0 && (b.discountedPrice.None? || b.discountedPrice.value > 0) &&
    |b.images| >= 1 && |b.variants| >= 1 &&
    forall k :: 0 <= k < |b.variants| ==> VariantValid(b.variants[k])
  }

  function VariantIssues(v: VariantBody): (issues: seq<string>)
    ensures issues == [] <==> VariantValid(v)
  {
    Check(v.stock >= 0, NumberAtLeastMessage(0)) +
    (if v.lowStockAt.Some? then Check(v.lowStockAt.value >= 0, NumberAtLeastMessage(0)) else [])
  }

  function EachVariantIssues(vs: seq<VariantBody>): (issues: seq<string>)
    ensures issues == [] <==> forall k :: 0 <= k < |vs| ==> VariantValid(vs[k])
  {
    if vs == [] then [] else VariantIssues(vs[0]) + EachVariantIssues(vs[1..])
  }

  /** `createProductSchema.parse`: fields in declaration order; an array's length check comes
      before its elements' checks. */
  function ProductIssues(b: ProductBody): (issues: seq<string>)
    ensures issues == [] <==> ProductValid(b)
  {
    Check(|b.name| >= 1, AtLeastMessage(1)) + Check(|b.slug| >= 1, AtLeastMessage(1)) +
    Check(|b.description| >= 1, AtLeastMessage(1)) + Check(|b.categoryId| >= 1, AtLeastMessage(1)) +
    Check(b.basePrice > 0, PositiveMessage) +
    (if b.discountedPrice.Some? then Check(b.discountedPrice.value > 0, PositiveMessage) else []) +
    Check(|b.images| >= 1, ArrayAtLeastMessage(1)) +
    Check(|b.variants| >= 1, ArrayAtLeastMessage(1)) + EachVariantIssues(b.variants)
  }

  predicate SlugExists(products: map<string, Product>, slug: string) {
    exists id :: id in products && products[id].slug == slug
  }

  predicate SkuTaken(variants: map<string, Variant>, sku: string) {
    exists id :: id in variants && variants[id].sku == sku
  }

  /** The variant table's unique index on `sku` admits the nested insert: the body's SKUs are
      pairwise different and none is already stored. */
  predicate SkusFree(variants: map<string, Variant>, vs: seq<VariantBody>) {
    (forall j, k :: 0 <= j < k < |vs| ==> vs[j].sku != vs[k].sku) &&
    (forall k :: 0 <= k < |vs| ==> !SkuTaken(variants, vs[k].sku))
  }

  /** No two variant rows share a SKU. */
  predicate SkusUnique(variants: map<string, Variant>) {
    forall a, b :: a in variants && b in variants && a != b ==> variants[a].sku != variants[b].sku
  }

  /** The product row the nested insert writes, with zod's defaults filled in. */
  function NewProduct(b: ProductBody): Product {
    Product(b.name, b.slug, b.description, b.material, b.careInstructions, b.categoryId, b.basePrice,
            b.discountedPrice, b.images, if b.tags.Some? then b.tags.value else [],
            b.isFeatured == Some(true), b.metaTitle, b.metaDescription)
  }

  function NewVariant(productId: string, v: VariantBody): Variant {
    Variant(productId, v.size, v.color, v.colorHex, v.sku, v.stock,
            if v.lowStockAt.Some? then v.lowStockAt.value else 3)
  }

  /** The ids the store would assign: a product id and one variant id per element, all unused
      and pairwise distinct. Any collision makes the insert throw. */
  predicate FreshIds(t: Tables, productId: string, n: nat, ids: nat -> string) {
    productId !in t.products &&
    (forall k :: 0 <= k < n ==> ids(k) !in t.variants) &&
    (forall j, k :: 0 <= j < k < n ==> ids(j) != ids(k))
  }

  function NewVariants(productId: string, vs: seq<VariantBody>, ids: nat -> string): map<string, Variant>
    requires forall j, k :: 0 <= j < k < |vs| ==> ids(j) != ids(k)
  {
    map k | 0 <= k < |vs| :: ids(k) := NewVariant(productId, vs[k])
  }

  /** The route on the store: the reply carries the new product's id (status 201). An unknown
      `categoryId` breaks the product's foreign key, and a repeated or stored SKU the variant
      table's unique index; either makes the nested create throw, and nothing is written. */
  function CreateProductSpec(t: Tables, session: Session, b: ProductBody, productId: string, ids: nat -> string)
    : (r: (Tables, Reply<string>))
    ensures !IsAdmin(session) ==> r == (t, Failure(401, Unauthorized))
    ensures IsAdmin(session) && !ProductValid(b) ==> r == (t, Failure(400, ProductIssues(b)[0]))
    ensures IsAdmin(session) && ProductValid(b) && SlugExists(t.products, b.slug) ==> r == (t, Failure(400, SlugTaken))
    ensures r.1.Failure? ==> r.0 == t
    ensures r.1.Success? <==> IsAdmin(session) && ProductValid(b) && !SlugExists(t.products, b.slug) &&
                              b.categoryId in t.categories && SkusFree(t.variants, b.variants) &&
                              FreshIds(t, productId, |b.variants|, ids)
  {
    if !IsAdmin(session) then (t, Failure(401, Unauthorized))
    else
      var issues := ProductIssues(b);
      if issues != [] then (t, Failure(400, issues[0]))
      else if SlugExists(t.products, b.slug) then (t, Failure(400, SlugTaken))
      else if b.categoryId !in t.categories || !SkusFree(t.variants, b.variants) ||
              !FreshIds(t, productId, |b.variants|, ids) then
        (t, Failure(500, CreateFailed))
      else
        (t.(products := t.products[productId := NewProduct(b)],
            variants := t.variants + NewVariants(productId, b.variants, ids)),
         Success(productId))
  }

  method CreateProduct(db: Db, session: Session, b: ProductBody, productId: string, ids: nat -> string)
    returns (r: Reply<string>)
    modifies db
    ensures (db.Snapshot(), r) == CreateProductSpec(old(db.Snapshot()), session, b, productId, ids)
  {
    if !IsAdmin(session) {
      return Failure(401, Unauthorized);
    }
    var issues := ProductIssues(b);
    if issues != [] {
      return Failure(400, issues[0]);
    }
    if SlugExists(db.products, b.slug) {
      return Failure(400, SlugTaken);
    }
    if b.categoryId !in db.categories || !SkusFree(db.variants, b.variants) ||
       !FreshIds(db.Snapshot(), productId, |b.variants|, ids) {
      return Failure(500, CreateFailed);
    }
    db.products := db.products[productId := NewProduct(b)];
    db.variants := db.variants + NewVariants(productId, b.variants, ids);
    r := Success(productId);
  }

  // ---------------------------------------------------------------------------------------------
  // Properties

  /** The admin check comes before the body is read: any two bodies get the same 401. */
  lemma {:induction false} UnauthorizedIgnoresBody(t: Tables, session: Session, b: ProductBody, c: ProductBody,
                                                   productId: string, ids: nat -> string)
    requires !IsAdmin(session)
    ensures CreateProductSpec(t, session, b, productId, ids) == CreateProductSpec(t, session, c, productId, ids)
    ensures CreateProductSpec(t, session, b, productId, ids).1 == Failure(401, Unauthorized)
  {
  }

  /** Element `k` of the body is the row under `ids(k)`. */
  lemma {:induction false} NewVariantAt(productId: string, vs: seq<VariantBody>, ids: nat -> string, k: nat)
    requires forall i, j :: 0 <= i < j < |vs| ==> ids(i) != ids(j)
    requires k < |vs|
    ensures ids(k) in NewVariants(productId, vs, ids) && NewVariants(productId, vs, ids)[ids(k)] == NewVariant(productId, vs[k])
  {
  }

  /** The new variant rows use only fresh ids, so none replaces an existing row. */
  lemma {:induction false} NewVariantIdsAreFresh(t: Tables, productId: string, vs: seq<VariantBody>, ids: nat -> string)
    requires FreshIds(t, productId, |vs|, ids)
    ensures forall id :: id in NewVariants(productId, vs, ids) ==> id !in t.variants
  {
    forall id | id in NewVariants(productId, vs, ids)
      ensures id !in t.variants
    {
      var j :| 0 <= j < |vs| && ids(j) == id;
    }
  }

  /** The store after a successful create, with the ids it used all fresh. */
  lemma {:induction false} CreatedState(t: Tables, session: Session, b: ProductBody, productId: string, ids: nat -> string)
    requires CreateProductSpec(t, session, b, productId, ids).1.Success?
    ensures FreshIds(t, productId, |b.variants|, ids)
    ensures CreateProductSpec(t, session, b, productId, ids).0 ==
              t.(products := t.products[productId := NewProduct(b)],
                 variants := t.variants + NewVariants(productId, b.variants, ids))
  {
  }

  /** A created product's row holds the body's fields and the defaults. */
  lemma {:induction false} CreatedProductRow(t: Tables, session: Session, b: ProductBody, productId: string,
                                             ids: nat -> string)
    requires CreateProductSpec(t, session, b, productId, ids).1.Success?
    ensures var t' := CreateProductSpec(t, session, b, productId, ids).0;
            t'.products == t.products[productId := NewProduct(b)] &&
            t'.products[productId].discountedPrice == b.discountedPrice &&
            t'.products[productId].tags == (if b.tags.None? then [] else b.tags.value) &&
            t'.products[productId].isFeatured == (b.isFeatured == Some(true))
  {
  }

  /** Each element of the body becomes one variant row under its id, with the default threshold
      when the body gives none. */
  lemma {:induction false} CreatedVariantRow(t: Tables, session: Session, b: ProductBody, productId: string,
                                             ids: nat -> string, k: nat)
    requires CreateProductSpec(t, session, b, productId, ids).1.Success?
    requires k < |b.variants|
    ensures var t' := CreateProductSpec(t, session, b, productId, ids).0;
            ids(k) in t'.variants && t'.variants[ids(k)] == NewVariant(productId, b.variants[k]) &&
            t'.variants[ids(k)].lowStockAt == (if b.variants[k].lowStockAt.None? then 3 else b.variants[k].lowStockAt.value)
  {
    CreatedState(t, session, b, productId, ids);
    NewVariantAt(productId, b.variants, ids, k);
  }

  /** Every earlier variant row is kept as it was. */
  lemma {:induction false} CreateKeepsVariants(t: Tables, session: Session, b: ProductBody, productId: string,
                                               ids: nat -> string, id: string)
    requires CreateProductSpec(t, session, b, productId, ids).1.Success?
    requires id in t.variants
    ensures var t' := CreateProductSpec(t, session, b, productId, ids).0;
            id in t'.variants && t'.variants[id] == t.variants[id]
  {
    CreatedState(t, session, b, productId, ids);
    NewVariantIdsAreFresh(t, productId, b.variants, ids);
  }

  /** Every stored product has a positive base price, an image and a variant, and every stored
      variant row a non-negative stock and threshold. */
  lemma {:induction false} CreatedBounds(t: Tables, session: Session, b: ProductBody, productId: string,
                                         ids: nat -> string, k: nat)
    requires CreateProductSpec(t, session, b, productId, ids).1.Success?
    requires k < |b.variants|
    ensures var t' := CreateProductSpec(t, session, b, productId, ids).0;
            productId in t'.products && ids(k) in t'.variants &&
            t'.products[productId].basePrice > 0 && |t'.products[productId].images| >= 1 &&
            t'.variants[ids(k)].stock >= 0 && t'.variants[ids(k)].lowStockAt >= 0
  {
    CreatedProductRow(t, session, b, productId, ids);
    CreatedVariantRow(t, session, b, productId, ids, k);
    assert VariantValid(b.variants[k]);
  }

  /** The schema does not look at SKUs or at the two prices together: repeating a variant, SKU
      and all, and raising the discounted price above the base price keep a body valid. */
  lemma {:induction false} NoSkuOrPriceRelationCheck(b: ProductBody)
    requires ProductValid(b)
    ensures ProductValid(b.(variants := b.variants + [b.variants[0]], discountedPrice := Some(b.basePrice + 1)))
  {
    var c := b.(variants := b.variants + [b.variants[0]], discountedPrice := Some(b.basePrice + 1));
    assert forall k :: 0 <= k < |c.variants| ==> c.variants[k] == (if k < |b.variants| then b.variants[k] else b.variants[0]);
  }

  /** A SKU already stored, or one the body repeats, makes the create fail with 500 and write
      nothing, even when the body passes the schema and the slug is free. */
  lemma {:induction false} ClashingSkuCreatesNothing(t: Tables, session: Session, b: ProductBody, productId: string,
                                                     ids: nat -> string, j: nat, k: nat)
    requires IsAdmin(session) && ProductValid(b) && !SlugExists(t.products, b.slug)
    requires k < |b.variants|
    requires (j < k && b.variants[j].sku == b.variants[k].sku) || SkuTaken(t.variants, b.variants[k].sku)
    ensures CreateProductSpec(t, session, b, productId, ids) == (t, Failure(500, CreateFailed))
  {
    assert !SkusFree(t.variants, b.variants);
  }

  /** The add page's SKUs depend only on the name's initials, so a second product whose
      two-word name shares them, posted with the generated SKU of a colour and size already
      stored, fails with 500. */
  lemma {:induction false} GeneratedSkuClash(t: Tables, session: Session, b: ProductBody, productId: string,
                                             ids: nat -> string, id: string,
                                             a1: string, a2: string, b1: string, b2: string, color: string, size: string)
    requires IsAdmin(session) && ProductValid(b) && !SlugExists(t.products, b.slug)
    requires a1 != [] && a2 != [] && b1 != [] && b2 != []
    requires ' ' !in a1 && ' ' !in a2 && ' ' !in b1 && ' ' !in b2
    requires a1[0] == b1[0] && a2[0] == b2[0]
    requires id in t.variants && t.variants[id].sku == InventoryAdd.GenerateSku(a1 + " " + a2, color, size)
    requires b.variants[0].sku == InventoryAdd.GenerateSku(b1 + " " + b2, color, size)
    ensures CreateProductSpec(t, session, b, productId, ids) == (t, Failure(500, CreateFailed))
  {
    InventoryAdd.SameInitialsSameSku(a1, a2, b1, b2, color, size);
    assert SkuTaken(t.variants, b.variants[0].sku);
    ClashingSkuCreatesNothing(t, session, b, productId, ids, 0, 0);
  }

  /** A create keeps every SKU in the variant table unique. */
  lemma {:induction false} CreateKeepsSkusUnique(t: Tables, session: Session, b: ProductBody, productId: string,
                                                 ids: nat -> string)
    requires SkusUnique(t.variants)
    ensures SkusUnique(CreateProductSpec(t, session, b, productId, ids).0.variants)
  {
    if CreateProductSpec(t, session, b, productId, ids).1.Success? {
      CreatedState(t, session, b, productId, ids);
      assert SkusFree(t.variants, b.variants);
      MergeKeepsSkusUnique(t, productId, b.variants, ids);
    }
  }

  /** Rows whose SKUs are new and pairwise different, under fresh ids, keep the SKUs unique. */
  lemma {:induction false} MergeKeepsSkusUnique(t: Tables, productId: string, vs: seq<VariantBody>, ids: nat -> string)
    requires SkusUnique(t.variants) && SkusFree(t.variants, vs) && FreshIds(t, productId, |vs|, ids)
    ensures SkusUnique(t.variants + NewVariants(productId, vs, ids))
  {
    var nv := NewVariants(productId, vs, ids);
    var m := t.variants + nv;
    NewVariantIdsAreFresh(t, productId, vs, ids);
    forall x, y | x in m && y in m && x != y
      ensures m[x].sku != m[y].sku
    {
      if x in nv && y in nv {
        var i :| 0 <= i < |vs| && ids(i) == x;
        var l :| 0 <= l < |vs| && ids(l) == y;
        NewVariantAt(productId, vs, ids, i);
        NewVariantAt(productId, vs, ids, l);
        if i > l {
          assert vs[l].sku != vs[i].sku;
        }
      } else if x in nv {
        var i :| 0 <= i < |vs| && ids(i) == x;
        NewVariantAt(productId, vs, ids, i);
        assert !SkuTaken(t.variants, vs[i].sku);
      } else if y in nv {
        var l :| 0 <= l < |vs| && ids(l) == y;
        NewVariantAt(productId, vs, ids, l);
        assert !SkuTaken(t.variants, vs[l].sku);
      }
    }
  }

  /** A taken slug creates nothing, whatever the variants. */
  lemma {:induction false} TakenSlugCreatesNothing(t: Tables, session: Session, b: ProductBody, productId: string,
                                                   ids: nat -> string, other: string)
    requires IsAdmin(session) && ProductValid(b)
    requires other in t.products && t.products[other].slug == b.slug
    ensures CreateProductSpec(t, session, b, productId, ids) == (t, Failure(400, SlugTaken))
  {
    assert SlugExists(t.products, b.slug);
  }
}
