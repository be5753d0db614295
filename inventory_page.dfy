/** The admin stock page (src/app/admin/inventory/page.tsx): the product list with each variant's
    stock, its classification, the summary counts, the search filter, and the in-place stock
    editor whose pending values live in the `editing` map. */
module InventoryPage {
  import opened Base
  import opened Text
  import InventoryAdd

  datatype StockVariant = StockVariant(id: string, sku: string, size: string, color: string, stock: int, lowStockAt: int)

  datatype ProductView = ProductView(id: string, name: string, variants: seq<StockVariant>)

  predicate IsOut(v: StockVariant) { v.stock == 0 }
  predicate IsLow(v: StockVariant) { v.stock > 0 && v.stock <= v.lowStockAt }

  /** How a row is shown: out of stock wins over low, since the row tests `isOut` first. */
  datatype Level = OutOfStock | LowStock | InStock

  function LevelOf(v: StockVariant): (l: Level)
    ensures l == OutOfStock <==> IsOut(v)
    ensures l == LowStock <==> IsLow(v)
    ensures l == InStock <==> !IsOut(v) && !IsLow(v)
  {
    if IsOut(v) then OutOfStock else if IsLow(v) then LowStock else InStock
  }

  /** `products.flatMap(p => p.variants)` */
  function AllVariants(products: seq<ProductView>): (vs: seq<StockVariant>)
    ensures forall i, k :: 0 <= i < |products| && 0 <= k < |products[i].variants| ==> products[i].variants[k] in vs
    ensures forall v :: v in vs ==> exists i :: 0 <= i < |products| && v in products[i].variants
  {
    if products == [] then [] else products[0].variants + AllVariants(products[1..])
  }

  function CountLow(vs: seq<StockVariant>): nat {
    if vs == [] then 0 else (if IsLow(vs[0]) then 1 else 0) + CountLow(vs[1..])
  }

  function CountOut(vs: seq<StockVariant>): nat {
    if vs == [] then 0 else (if IsOut(vs[0]) then 1 else 0) + CountOut(vs[1..])
  }

  function TotalUnits(vs: seq<StockVariant>): int {
    if vs == [] then 0 else vs[0].stock + TotalUnits(vs[1..])
  }

  /** The three counts of the summary cards, over all variants of all products. */
  function Summary(products: seq<ProductView>): (int, int, int) {
    var all := AllVariants(products);
    (CountLow(all), CountOut(all), TotalUnits(all))
  }

  /** The counts add up over a concatenation, so each product contributes its own variants. */
  lemma {:induction false} CountsSplit(a: seq<StockVariant>, b: seq<StockVariant>)
    ensures CountLow(a + b) == CountLow(a) + CountLow(b)
    ensures CountOut(a + b) == CountOut(a) + CountOut(b)
    ensures TotalUnits(a + b) == TotalUnits(a) + TotalUnits(b)
  {
    if a != [] {
      assert (a + b)[1..] == a[1..] + b;
      CountsSplit(a[1..], b);
    } else {
      assert a + b == b;
    }
  }

  /** No variant is counted as both low and out, so the two counts together never exceed the
      number of variants. */
  lemma {:induction false} LowAndOutDisjoint(vs: seq<StockVariant>)
    ensures CountLow(vs) + CountOut(vs) <= |vs|
  {
    if vs != [] {
      LowAndOutDisjoint(vs[1..]);
    }
  }

  /** Appending a product to the list adds exactly its variants' counts to the summary. */
  lemma {:induction false} SummaryOfAppend(products: seq<ProductView>, p: ProductView)
    ensures var (low, out, units) := Summary(products);
            Summary(products + [p]) == (low + CountLow(p.variants), out + CountOut(p.variants),
                                        units + TotalUnits(p.variants))
  {
    AppendVariants(products, p);
    CountsSplit(AllVariants(products), p.variants);
  }

  lemma {:induction false} AppendVariants(products: seq<ProductView>, p: ProductView)
    ensures AllVariants(products + [p]) == AllVariants(products) + p.variants
  {
    if products != [] {
      assert (products + [p])[1..] == products[1..] + [p];
      AppendVariants(products[1..], p);
    }
  }

  // ---------------------------------------------------------------------------------------------
  // Search

  /** `!search || p.name.toLowerCase().includes(search.toLowerCase())` */
  predicate Shown(p: ProductView, search: string) {
    search == [] || Contains(Lower(p.name), Lower(search))
  }

  function Filtered(products: seq<ProductView>, search: string): (r: seq<ProductView>)
    ensures forall p :: p in r <==> p in products && Shown(p, search)
    ensures |r| <= |products|
  {
    if products == [] then []
    else (if Shown(products[0], search) then [products[0]] else []) + Filtered(products[1..], search)
  }

  /** The filter keeps table order: filtering a concatenation filters each part. */
  lemma {:induction false} FilteredAppend(a: seq<ProductView>, b: seq<ProductView>, search: string)
    ensures Filtered(a + b, search) == Filtered(a, search) + Filtered(b, search)
  {
    if a == [] {
      assert a + b == b;
    } else {
      assert (a + b)[0] == a[0];
      assert (a + b)[1..] == a[1..] + b;
      FilteredAppend(a[1..], b, search);
    }
  }

  /** A single product is shown exactly when it matches. */
  lemma {:induction false} FilteredSingle(p: ProductView, search: string)
    ensures Filtered([p], search) == if Shown(p, search) then [p] else []
  {
    assert [p][1..] == [];
  }

  /** An empty search shows every product, in order. */
  lemma {:induction false} EmptySearchShowsAll(products: seq<ProductView>)
    ensures Filtered(products, "") == products
  {
    if products != [] {
      EmptySearchShowsAll(products[1..]);
    }
  }

  /** The match ignores the case of the query: an upper-cased query shows the same products. */
  lemma {:induction false} SearchIgnoresCase(products: seq<ProductView>, search: string)
    ensures Filtered(products, Upper(search)) == Filtered(products, search)
  {
    LowerOfUpper(search);
    if products != [] {
      SearchIgnoresCase(products[1..], search);
    }
  }

  // ---------------------------------------------------------------------------------------------
  // Saving a stock value

  /** The list after a successful PATCH: every variant with that id gets the new stock. */
  function WithStock(products: seq<ProductView>, variantId: string, stock: int): (r: seq<ProductView>)
    ensures |r| == |products|
    ensures forall i :: 0 <= i < |r| ==>
      r[i].id == products[i].id && r[i].name == products[i].name && |r[i].variants| == |products[i].variants|
    ensures forall i, k :: 0 <= i < |r| && 0 <= k < |r[i].variants| ==>
      r[i].variants[k] == (if products[i].variants[k].id == variantId then products[i].variants[k].(stock := stock)
                           else products[i].variants[k])
  {
    seq(|products|, i requires 0 <= i < |products| =>
      products[i].(variants := seq(|products[i].variants|, k requires 0 <= k < |products[i].variants| =>
        var v := products[i].variants[k];
        if v.id == variantId then v.(stock := stock) else v)))
  }

  /** Saving twice is saving once, and saving the value a variant already has changes nothing. */
  lemma {:induction false} SaveIdempotent(products: seq<ProductView>, variantId: string, stock: int)
    ensures WithStock(WithStock(products, variantId, stock), variantId, stock) == WithStock(products, variantId, stock)
  {
    var once := WithStock(products, variantId, stock);
    var twice := WithStock(once, variantId, stock);
    forall i | 0 <= i < |products|
      ensures twice[i] == once[i]
    {
      assert twice[i].variants == once[i].variants;
    }
  }

  lemma {:induction false} SaveCurrentIsNoChange(products: seq<ProductView>, variantId: string, stock: int)
    requires forall i, k :: 0 <= i < |products| && 0 <= k < |products[i].variants| && products[i].variants[k].id == variantId ==>
      products[i].variants[k].stock == stock
    ensures WithStock(products, variantId, stock) == products
  {
    var r := WithStock(products, variantId, stock);
    forall i | 0 <= i < |products|
      ensures r[i] == products[i]
    {
      assert r[i].variants == products[i].variants;
    }
  }

  /** A save only moves the classification of the saved variant: every other variant keeps its
      level, so the counts change only through it. */
  lemma {:induction false} SaveKeepsOtherLevels(products: seq<ProductView>, variantId: string, stock: int, i: nat, k: nat)
    requires i < |products| && k < |products[i].variants| && products[i].variants[k].id != variantId
    ensures LevelOf(WithStock(products, variantId, stock)[i].variants[k]) == LevelOf(products[i].variants[k])
  {
  }

  // ---------------------------------------------------------------------------------------------
  // The page state

  class InventoryView {
    var products: seq<ProductView>
    /** Pending edits: variant id to the value in its number box. */
    var editing: map<string, int>
    var search: string

    constructor (loaded: seq<ProductView>)
      ensures products == loaded && editing == map[] && search == ""
    {
      products := loaded;
      editing := map[];
      search := "";
    }

    function Visible(): seq<ProductView>
      reads this
    {
      Filtered(products, search)
    }

    /** Clicking a stock figure: the edit starts from the current stock. */
    method StartEdit(v: StockVariant)
      modifies this`editing
      ensures editing == old(editing)[v.id := v.stock]
    {
      editing := editing[v.id := v.stock];
    }

    /** Typing in the box: `parseInt(value) || 0`. */
    method EditValue(variantId: string, input: Option<int>)
      modifies this`editing
      ensures editing == old(editing)[variantId := InventoryAdd.NumberOr(input, 0)]
    {
      editing := editing[variantId := InventoryAdd.NumberOr(input, 0)];
    }

    method CancelEdit(variantId: string)
      modifies this`editing
      ensures editing == old(editing) - {variantId}
    {
      editing := editing - {variantId};
    }

    /** saveStock: `ok` is whether the PATCH answered 2xx. On success the variant's stock is the
        saved value and its pending edit is gone; on failure nothing changes. */
    method SaveStock(variantId: string, stock: int, ok: bool)
      modifies this`products, this`editing
      ensures ok ==> products == WithStock(old(products), variantId, stock) && editing == old(editing) - {variantId}
      ensures !ok ==> products == old(products) && editing == old(editing)
    {
      if ok {
        products := WithStock(products, variantId, stock);
        editing := editing - {variantId};
      }
    }

    method SetSearch(text: string)
      modifies this`search
      ensures search == text
    {
      search := text;
    }
  }
}
