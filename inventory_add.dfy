/** The add-product page of src/app/admin/inventory/add/page.tsx: SKU generation, the variant
    rows and images the form edits, and the checks made before the form is posted. Number inputs
    are modelled as an integer or None when the box is empty. */
module InventoryAdd {
  import opened Base
  import opened Text

  // ---------------------------------------------------------------------------------------------
  // generateSKU

  /** `s.split(' ')`: the pieces between single spaces, empty pieces included. */
  function SplitSpaces(s: string): (words: seq<string>)
    ensures |words| >= 1
    ensures forall k :: 0 <= k < |words| ==> ' ' !in words[k]
    decreases |s|
  {
    if s == [] then [""]
    else
      var rest := SplitSpaces(s[1..]);
      if s[0] == ' ' then [""] + rest else [[s[0]] + rest[0]] + rest[1..]
  }

  /** `words.map(w => w[0]).join('')`: an empty word contributes nothing (its `w[0]` is
      undefined, which `join` writes as the empty string). */
  function FirstChars(words: seq<string>): (r: string)
    ensures |r| <= |words|
  {
    if words == [] then ""
    else (if words[0] == "" then "" else [words[0][0]]) + FirstChars(words[1..])
  }

  /** `color.replace(/[^A-Z]/gi, '')`: the ASCII letters, in order. */
  function LettersOnly(s: string): (r: string)
    ensures |r| <= |s|
    ensures forall k :: 0 <= k < |r| ==> IsLetter(r[k])
  {
    if s == [] then "" else (if IsLetter(s[0]) then [s[0]] else "") + LettersOnly(s[1..])
  }

  /** `s.slice(0, 3)` */
  function Take3(s: string): (r: string)
    ensures |r| == Min(3, |s|) && r == s[..|r|]
  {
    s[..Min(3, |s|)]
  }

  function NamePart(productName: string): (r: string)
    ensures |r| <= 3
  {
    Take3(Upper(FirstChars(SplitSpaces(productName))))
  }

  function ColorPart(color: string): (r: string)
    ensures |r| <= 3
    ensures forall k :: 0 <= k < |r| ==> IsUpper(r[k])
  {
    Take3(Upper(LettersOnly(color)))
  }

  /** generateSKU(productName, color, size) */
  function GenerateSku(productName: string, color: string, size: string): (sku: string)
    ensures StartsWith(sku, "NPG-") && EndsWith(sku, "-" + size)
    ensures |sku| <= 4 + 3 + 1 + 3 + 1 + |size|
  {
    var sku := "NPG-" + NamePart(productName) + "-" + ColorPart(color) + "-" + size;
    assert sku[..4] == "NPG-";
    assert sku[|sku| - |"-" + size|..] == "-" + size;
    sku
  }

  /** For one product name and colour, the SKU determines the size. */
  lemma {:induction false} SkuDeterminesSize(productName: string, color: string, a: string, b: string)
    ensures GenerateSku(productName, color, a) == GenerateSku(productName, color, b) <==> a == b
  {
    var prefix := "NPG-" + NamePart(productName) + "-" + ColorPart(color) + "-";
    assert GenerateSku(productName, color, a) == prefix + a;
    assert GenerateSku(productName, color, b) == prefix + b;
    assert a == (prefix + a)[|prefix|..];
    assert b == (prefix + b)[|prefix|..];
  }

  /** Splitting at a space splits the pieces: the words of `a + " " + b` are those of `a`
      followed by those of `b`. */
  lemma {:induction false} SplitAtSpace(a: string, b: string)
    ensures SplitSpaces(a + " " + b) == SplitSpaces(a) + SplitSpaces(b)
    decreases |a|
  {
    if a == [] {
      assert a + " " + b == [' '] + b;
      assert (a + " " + b)[1..] == b;
    } else {
      assert (a + " " + b)[1..] == a[1..] + " " + b;
      SplitAtSpace(a[1..], b);
    }
  }

  /** A piece with no space is one word. */
  lemma {:induction false} OneWord(w: string)
    requires ' ' !in w
    ensures SplitSpaces(w) == [w]
    decreases |w|
  {
    if w != [] {
      assert ' ' !in w[1..] by {
        assert forall k :: 0 <= k < |w[1..]| ==> w[1..][k] == w[k + 1];
      }
      OneWord(w[1..]);
      assert [w[0]] + w[1..] == w;
    }
  }

  lemma {:induction false} FirstCharsSplit(u: seq<string>, v: seq<string>)
    ensures FirstChars(u + v) == FirstChars(u) + FirstChars(v)
    decreases |u|
  {
    if u == [] {
      assert u + v == v;
    } else {
      assert (u + v)[1..] == u[1..] + v;
      FirstCharsSplit(u[1..], v);
    }
  }

  /** The initials of two space-separated parts are those of each part. */
  lemma {:induction false} InitialsOfParts(a: string, b: string)
    ensures FirstChars(SplitSpaces(a + " " + b)) == FirstChars(SplitSpaces(a)) + FirstChars(SplitSpaces(b))
  {
    SplitAtSpace(a, b);
    FirstCharsSplit(SplitSpaces(a), SplitSpaces(b));
  }

  /** Extra spaces, leading or repeated, make empty words, which add no initial. */
  lemma {:induction false} ExtraSpacesAddNothing(a: string, b: string)
    ensures FirstChars(SplitSpaces(a + " " + " " + b)) == FirstChars(SplitSpaces(a + " " + b))
    ensures FirstChars(SplitSpaces(" " + b)) == FirstChars(SplitSpaces(b))
  {
    InitialsOfParts(a + " ", b);
    InitialsOfParts(a, "");
    assert a + " " + "" == a + " ";
    InitialsOfParts(a, b);
    InitialsOfParts("", b);
    assert "" + " " + b == " " + b;
  }

  /** A word with no space contributes its first character. */
  lemma {:induction false} InitialOfWord(w: string)
    requires w != [] && ' ' !in w
    ensures FirstChars(SplitSpaces(w)) == [w[0]]
  {
    OneWord(w);
  }

  /** Two-word names with the same two initials get the same SKU for one colour and size, so
      "Speed Racer" and "Street Runner" in White UK8 both get NPG-SR-WHI-UK8. */
  lemma {:induction false} SameInitialsSameSku(a1: string, a2: string, b1: string, b2: string, color: string, size: string)
    requires a1 != [] && a2 != [] && b1 != [] && b2 != []
    requires ' ' !in a1 && ' ' !in a2 && ' ' !in b1 && ' ' !in b2
    requires a1[0] == b1[0] && a2[0] == b2[0]
    ensures GenerateSku(a1 + " " + a2, color, size) == GenerateSku(b1 + " " + b2, color, size)
  {
    InitialsOfParts(a1, a2);
    InitialsOfParts(b1, b2);
    InitialOfWord(a1);
    InitialOfWord(a2);
    InitialOfWord(b1);
    InitialOfWord(b2);
  }

  lemma SpeedRacerMeetsStreetRunner()
    ensures GenerateSku("Speed Racer", "White", "UK8") == GenerateSku("Street Runner", "White", "UK8")
  {
    assert "Speed Racer" == "Speed" + " " + "Racer";
    assert "Street Runner" == "Street" + " " + "Runner";
    SameInitialsSameSku("Speed", "Racer", "Street", "Runner", "White", "UK8");
  }

  // ---------------------------------------------------------------------------------------------
  // Variant rows

  datatype VariantRow = VariantRow(
    id: string,
    size: string,
    color: string,
    colorHex: string,
    sku: string,
    stock: int,
    lowStockAt: int)

  const StandardSizes := ["UK6", "UK7", "UK8", "UK9", "UK10", "UK11"]

  /** `parseInt(text) || fallback` on a number box: an empty box or a zero gives the fallback. */
  function NumberOr(input: Option<int>, fallback: int): (n: int)
    ensures input.Some? && input.value != 0 ==> n == input.value
    ensures input.None? || input.value == 0 ==> n == fallback
  {
    if input.Some? && input.value != 0 then input.value else fallback
  }

  /** addBulkVariants' rows: one per standard size, in order, with fresh ids from `uuid`. */
  function BulkRows(productName: string, color: string, colorHex: string, stock: Option<int>,
                    uuid: nat -> string): (rows: seq<VariantRow>)
    ensures |rows| == |StandardSizes|
    ensures forall k :: 0 <= k < |rows| ==>
      rows[k] == VariantRow(uuid(k), StandardSizes[k], color, colorHex,
                            GenerateSku(productName, color, StandardSizes[k]), NumberOr(stock, 0), 3)
  {
    seq(|StandardSizes|, k requires 0 <= k < |StandardSizes| =>
      VariantRow(uuid(k), StandardSizes[k], color, colorHex,
                 GenerateSku(productName, color, StandardSizes[k]), NumberOr(stock, 0), 3))
  }

  /** The six bulk rows never share a SKU with each other. */
  lemma {:induction false} BulkSkusDistinct(productName: string, color: string, colorHex: string,
                                            stock: Option<int>, uuid: nat -> string, i: nat, j: nat)
    requires i < j < |StandardSizes|
    ensures BulkRows(productName, color, colorHex, stock, uuid)[i].sku !=
            BulkRows(productName, color, colorHex, stock, uuid)[j].sku
  {
    assert StandardSizes[i] != StandardSizes[j];
    SkuDeterminesSize(productName, color, StandardSizes[i], StandardSizes[j]);
  }

  /** A field edit from the row editor. The stock and low-stock boxes pass `parseInt(...) || 0`
      and `parseInt(...) || 3`. */
  datatype Edit =
    | SetSize(size: string)
    | SetColor(color: string)
    | SetColorHex(colorHex: string)
    | SetSku(sku: string)
    | SetStock(stock: Option<int>)
    | SetLowStockAt(lowStockAt: Option<int>)

  /** One row after an edit: a new colour or size regenerates the SKU from the current name. */
  function Edited(v: VariantRow, e: Edit, productName: string): (r: VariantRow)
    ensures r.id == v.id
    ensures e.SetColor? || e.SetSize? ==> r.sku == GenerateSku(productName, r.color, r.size)
    ensures e.SetSku? ==> r.sku == e.sku
    ensures !(e.SetColor? || e.SetSize? || e.SetSku?) ==> r.sku == v.sku
  {
    match e
    case SetSize(s) => v.(size := s, sku := GenerateSku(productName, v.color, s))
    case SetColor(c) => v.(color := c, sku := GenerateSku(productName, c, v.size))
    case SetColorHex(h) => v.(colorHex := h)
    case SetSku(s) => v.(sku := s)
    case SetStock(n) => v.(stock := NumberOr(n, 0))
    case SetLowStockAt(n) => v.(lowStockAt := NumberOr(n, 3))
  }

  /** Typing 0 in the low-stock box stores 3: zero is falsy. */
  lemma LowStockZeroBecomesThree(v: VariantRow, productName: string)
    ensures Edited(v, SetLowStockAt(Some(0)), productName).lowStockAt == 3
    ensures Edited(v, SetStock(Some(0)), productName).stock == 0
  {
  }

  /** updateVariant: `variants.map(v => v.id !== id ? v : edited)` */
  function UpdatedRows(rows: seq<VariantRow>, id: string, e: Edit, productName: string): (r: seq<VariantRow>)
    ensures |r| == |rows|
    ensures forall k :: 0 <= k < |rows| && rows[k].id != id ==> r[k] == rows[k]
    ensures forall k :: 0 <= k < |rows| && rows[k].id == id ==> r[k] == Edited(rows[k], e, productName)
  {
    seq(|rows|, k requires 0 <= k < |rows| => if rows[k].id != id then rows[k] else Edited(rows[k], e, productName))
  }

  /** removeVariant: `variants.filter(v => v.id !== id)` */
  function WithoutRow(rows: seq<VariantRow>, id: string): (r: seq<VariantRow>)
    ensures forall v :: v in r <==> v in rows && v.id != id
    ensures |r| <= |rows|
  {
    if rows == [] then []
    else (if rows[0].id == id then [] else [rows[0]]) + WithoutRow(rows[1..], id)
  }

  /** `images.filter((_, i) => i !== index)` */
  function WithoutIndex<T>(s: seq<T>, index: int): (r: seq<T>)
    ensures 0 <= index < |s| ==> r == s[..index] + s[index + 1..]
    ensures !(0 <= index < |s|) ==> r == s
    decreases |s|
  {
    if s == [] then []
    else if index == 0 then s[1..]
    else
      var rest := WithoutIndex(s[1..], index - 1);
      assert [s[0]] + s[1..] == s;
      assert 0 < index < |s| ==> [s[0]] + s[1..][..index - 1] == s[..index] && s[1..][index..] == s[index + 1..];
      [s[0]] + rest
  }

  /** removeVariant drops the rows with that id and keeps the others in order. */
  lemma {:induction false} WithoutRowKeepsOrder(a: seq<VariantRow>, b: seq<VariantRow>, id: string)
    ensures WithoutRow(a + b, id) == WithoutRow(a, id) + WithoutRow(b, id)
    decreases |a|
  {
    if a == [] {
      assert a + b == b;
    } else {
      assert (a + b)[1..] == a[1..] + b;
      WithoutRowKeepsOrder(a[1..], b, id);
    }
  }

  // ---------------------------------------------------------------------------------------------
  // The submit checks

  const NameRequired := "Product name required"
  const CategoryRequired := "Select a category"
  const PriceRequired := "Enter valid price"
  const VariantRequired := "Add at least one variant"
  const ImageRequired := "Add at least one product image"
  const DuplicateSkus := "Duplicate SKUs detected"

  /** The SKUs are pairwise distinct: `new Set(skus).size === skus.length`. */
  predicate DistinctSkus(rows: seq<VariantRow>) {
    forall i, j :: 0 <= i < j < |rows| ==> rows[i].sku != rows[j].sku
  }

  /** handleSubmit's checks in order: the first failing one's message, or None when the form is
      posted. */
  function SubmitIssue(name: string, categoryId: string, basePrice: Option<int>, rows: seq<VariantRow>,
                       images: seq<string>): (r: Option<string>)
    ensures r.None? <==>
      Trim(name) != "" && categoryId != "" && basePrice.Some? && basePrice.value > 0 &&
      rows != [] && images != [] && DistinctSkus(rows)
    ensures Trim(name) == "" ==> r == Some(NameRequired)
    ensures (Trim(name) != "" && categoryId != "" && basePrice.Some? && basePrice.value > 0 &&
             rows != [] && images != [] && !DistinctSkus(rows)) ==> r == Some(DuplicateSkus)
  {
    if Trim(name) == "" then Some(NameRequired)
    else if categoryId == "" then Some(CategoryRequired)
    else if basePrice.None? || basePrice.value <= 0 then Some(PriceRequired)
    else if rows == [] then Some(VariantRequired)
    else if images == [] then Some(ImageRequired)
    else if !DistinctSkus(rows) then Some(DuplicateSkus)
    else None
  }

  /** Two bulk adds with the same name and colour repeat every SKU, so the form cannot be
      posted; one bulk add on an empty list can. */
  lemma {:induction false} BulkTwiceIsRefused(name: string, categoryId: string, basePrice: int, images: seq<string>,
                                              color: string, colorHex: string, stock: Option<int>, uuid: nat -> string)
    requires Trim(name) != "" && categoryId != "" && basePrice > 0 && images != []
    ensures var once := BulkRows(name, color, colorHex, stock, uuid);
            SubmitIssue(name, categoryId, Some(basePrice), once, images).None? &&
            SubmitIssue(name, categoryId, Some(basePrice), once + once, images) == Some(DuplicateSkus)
  {
    var once := BulkRows(name, color, colorHex, stock, uuid);
    forall i, j | 0 <= i < j < |once|
      ensures once[i].sku != once[j].sku
    {
      BulkSkusDistinct(name, color, colorHex, stock, uuid, i, j);
    }
    var twice := once + once;
    assert twice[0].sku == twice[|once|].sku;
  }

  // ---------------------------------------------------------------------------------------------
  // The form's state

  class AddProductForm {
    var name: string
    var categoryId: string
    var basePrice: Option<int>
    var images: seq<string>
    var imageUrl: string
    var variants: seq<VariantRow>
    var bulkColor: string
    var bulkColorHex: string
    var bulkStock: Option<int>

    constructor ()
      ensures name == "" && categoryId == "" && basePrice.None? && images == [] && imageUrl == ""
      ensures variants == [] && bulkColor == "White" && bulkColorHex == "#FFFFFF" && bulkStock == Some(10)
    {
      name := "";
      categoryId := "";
      basePrice := None;
      images := [];
      imageUrl := "";
      variants := [];
      bulkColor := "White";
      bulkColorHex := "#FFFFFF";
      bulkStock := Some(10);
    }

    /** A blank URL is ignored; otherwise the trimmed URL is appended and the box cleared. */
    method AddImageByUrl()
      modifies this`images, this`imageUrl
      ensures Trim(old(imageUrl)) == "" ==> images == old(images) && imageUrl == old(imageUrl)
      ensures Trim(old(imageUrl)) != "" ==> images == old(images) + [Trim(old(imageUrl))] && imageUrl == ""
    {
      var url := Trim(imageUrl);
      if url == "" {
        return;
      }
      images := images + [url];
      imageUrl := "";
    }

    /** An uploaded image's URL is appended as it comes back. */
    method AddUploadedImage(url: Option<string>)
      modifies this`images
      ensures images == if url.Some? && url.value != "" then old(images) + [url.value] else old(images)
    {
      if url.Some? && url.value != "" {
        images := images + [url.value];
      }
    }

    method RemoveImage(index: int)
      modifies this`images
      ensures images == WithoutIndex(old(images), index)
    {
      images := WithoutIndex(images, index);
    }

    /** Refused (`refused` true, nothing added) while the name is blank. */
    method AddBulkVariants(uuid: nat -> string) returns (refused: bool)
      modifies this`variants
      ensures refused <==> Trim(name) == ""
      ensures refused ==> variants == old(variants)
      ensures !refused ==> variants == old(variants) + BulkRows(name, bulkColor, bulkColorHex, bulkStock, uuid)
    {
      if Trim(name) == "" {
        return true;
      }
      variants := variants + BulkRows(name, bulkColor, bulkColorHex, bulkStock, uuid);
      return false;
    }

    method AddSingleVariant(id: string) returns (refused: bool)
      modifies this`variants
      ensures refused <==> Trim(name) == ""
      ensures refused ==> variants == old(variants)
      ensures !refused ==>
        variants == old(variants) + [VariantRow(id, "UK8", "White", "#FFFFFF", GenerateSku(name, "White", "UK8"), 0, 3)]
    {
      if Trim(name) == "" {
        return true;
      }
      variants := variants + [VariantRow(id, "UK8", "White", "#FFFFFF", GenerateSku(name, "White", "UK8"), 0, 3)];
      return false;
    }

    method UpdateVariant(id: string, e: Edit)
      modifies this`variants
      ensures variants == UpdatedRows(old(variants), id, e, name)
    {
      variants := UpdatedRows(variants, id, e, name);
    }

    method RemoveVariant(id: string)
      modifies this`variants
      ensures variants == WithoutRow(old(variants), id)
    {
      variants := WithoutRow(variants, id);
    }
  }
}
