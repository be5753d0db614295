/** The pricing and naming helpers of src/lib/utils.ts. */
module Utils {
  import opened Base
  import opened Text

  /** Store defaults: free shipping from 999, otherwise a charge of 49; COD from 299. */
  const FreeShippingThreshold := 999
  const ShippingCharge := 49
  const CodMinOrder := 299

  /** calculateShipping(subtotal, freeThreshold = 999, shippingCharge = 49) */
  function CalculateShipping(subtotal: int, freeThreshold: int := FreeShippingThreshold,
                             shippingCharge: int := ShippingCharge): (fee: int)
    ensures subtotal >= freeThreshold ==> fee == 0
    ensures subtotal < freeThreshold ==> fee == shippingCharge
  {
    if subtotal >= freeThreshold then 0 else shippingCharge
  }

  /** With the defaults the fee is 0 or 49, and it is 0 exactly from 999 upwards. */
  lemma ShippingDefaults(subtotal: int)
    ensures CalculateShipping(subtotal) == 0 <==> subtotal >= 999
    ensures CalculateShipping(subtotal) == 0 || CalculateShipping(subtotal) == 49
  {
  }

  /** A larger subtotal never pays more shipping (for a non-negative charge). */
  lemma {:induction false} ShippingMonotone(a: int, b: int, freeThreshold: int, shippingCharge: int)
    requires a <= b && shippingCharge >= 0
    ensures CalculateShipping(b, freeThreshold, shippingCharge) <= CalculateShipping(a, freeThreshold, shippingCharge)
  {
  }

  /** isCODAvailable(subtotal, codMinOrder = 299) */
  function IsCodAvailable(subtotal: int, codMinOrder: int := CodMinOrder): (ok: bool)
    ensures ok <==> subtotal >= codMinOrder
  {
    subtotal >= codMinOrder
  }

  /** generateOrderNumber(count): "NPG-" + year + "-" + count padded with zeros to at least
      five digits. The year comes from the clock and is a parameter. */
  function GenerateOrderNumber(year: nat, count: nat): (n: string)
    ensures n == "NPG-" + NatToString(year) + "-" + OrderSuffix(count)
    ensures |n| >= 5 + |NatToString(year)| + 5
  {
    "NPG-" + NatToString(year) + "-" + OrderSuffix(count)
  }

  function OrderSuffix(count: nat): (s: string)
    ensures |s| >= 5 && AllDigits(s)
  {
    var d := NatToString(count);
    var s := PadStart(d, 5, '0');
    LeadingZerosValue(|s| - |d|, d);
    s
  }

  /** Padding never truncates: the suffix still denotes the count. */
  lemma {:induction false} OrderSuffixValue(count: nat)
    ensures DigitsValue(OrderSuffix(count)) == count
  {
    var d := NatToString(count);
    var s := PadStart(d, 5, '0');
    LeadingZerosValue(|s| - |d|, d);
    NatToStringValue(count);
  }

  /** For a fixed year, distinct counts give distinct order numbers. */
  lemma {:induction false} OrderNumberInjective(year: nat, a: nat, b: nat)
    requires GenerateOrderNumber(year, a) == GenerateOrderNumber(year, b)
    ensures a == b
  {
    var p := "NPG-" + NatToString(year) + "-";
    var na := GenerateOrderNumber(year, a);
    assert na == p + OrderSuffix(a);
    assert GenerateOrderNumber(year, b) == p + OrderSuffix(b);
    assert OrderSuffix(a) == na[|p|..];
    assert OrderSuffix(b) == na[|p|..];
    OrderSuffixValue(a);
    OrderSuffixValue(b);
  }

  lemma OrderNumberExample()
    ensures GenerateOrderNumber(2025, 42) == "NPG-2025-00042"
    ensures GenerateOrderNumber(2025, 123456) == "NPG-2025-123456"
  {
  }

  /** discountPercent(original, discounted) = Math.round((original - discounted) / original * 100).
      A zero original divides by zero and yields NaN or an infinity: None. */
  function DiscountPercent(original: int, discounted: int): (r: Option<int>)
    ensures r.None? <==> original == 0
    ensures r.Some? && original > 0 ==>
      2 * original * r.value - original <= 200 * (original - discounted) < 2 * original * r.value + original
  {
    if original == 0 then None
    else if original > 0 then Some(RoundDiv(100 * (original - discounted), original))
    else Some(RoundDiv(100 * (discounted - original), -original))
  }

  /** No markdown is 0%, a markdown to zero is 100%, and a markdown in between lies in 0..100. */
  lemma {:induction false} DiscountPercentRange(original: int, discounted: int)
    requires original > 0 && 0 <= discounted <= original
    ensures DiscountPercent(original, original) == Some(0)
    ensures DiscountPercent(original, 0) == Some(100)
    ensures 0 <= DiscountPercent(original, discounted).value <= 100
  {
    RoundDivRange(100 * (original - discounted), original, 0, 100);
    RoundDivRange(0, original, 0, 0);
    RoundDivRange(100 * original, original, 100, 100);
  }

  lemma DiscountPercentExample()
    ensures DiscountPercent(2999, 1999) == Some(33)
    ensures DiscountPercent(1000, 995) == Some(1)
    ensures DiscountPercent(0, 10) == None
  {
  }

  // ---------------------------------------------------------------------------------------------
  // slugify(text) = text.toLowerCase()
  //                     .replace(/[^\w\s-]/g, '')      (Filter)
  //                     .replace(/[\s_-]+/g, '-')      (Collapse)
  //                     .replace(/^-+|-+$/g, '')       (TrimDashes)

  /** toLowerCase as far as it matters to slugify: ASCII capitals, U+0130 (which lowercases to
      "i" followed by U+0307) and the Kelvin sign U+212A (which lowercases to "k"). Every other
      non-ASCII character lowercases to a non-ASCII, non-space character, which Filter removes
      either way, so it is left as it is. */
  function LowerCaseChar(c: char): (r: string)
    ensures |r| <= 2
  {
    if IsUpper(c) then [ToLowerChar(c)]
    else if c as int == 0x130 then ['i', 0x307 as char]
    else if c as int == 0x212A then ['k']
    else [c]
  }

  function LowerCase(s: string): (r: string)
    ensures forall i :: 0 <= i < |r| ==> !IsUpper(r[i])
  {
    if s == [] then [] else LowerCaseChar(s[0]) + LowerCase(s[1..])
  }

  /** `\w` of a JavaScript regular expression without the u flag. */
  predicate IsWordChar(c: char) { IsAlnum(c) || c == '_' }

  /** `[\s_-]` */
  predicate IsSeparator(c: char) { IsJsSpace(c) || c == '_' || c == '-' }

  /** What survives Filter and lower-casing: a-z, 0-9 and separators. */
  predicate IsFiltered(c: char) { IsLower(c) || IsDigit(c) || IsSeparator(c) }

  predicate IsSlugChar(c: char) { IsLower(c) || IsDigit(c) || c == '-' }

  /** .replace(/[^\w\s-]/g, '') */
  function Filter(s: string): (r: string)
    ensures |r| <= |s|
    ensures (forall i :: 0 <= i < |s| ==> !IsUpper(s[i])) ==> forall i :: 0 <= i < |r| ==> IsFiltered(r[i])
  {
    if s == [] then []
    else if IsWordChar(s[0]) || IsJsSpace(s[0]) || s[0] == '-' then [s[0]] + Filter(s[1..])
    else Filter(s[1..])
  }

  /** The input without its leading run of separators. */
  function DropSeparators(s: string): (r: string)
    ensures |r| <= |s| && r == s[|s| - |r|..]
    ensures r == [] || !IsSeparator(r[0])
  {
    if s != [] && IsSeparator(s[0]) then DropSeparators(s[1..]) else s
  }

  predicate NoDoubleDash(s: string) {
    forall i :: 0 <= i < |s| - 1 ==> !(s[i] == '-' && s[i + 1] == '-')
  }

  predicate AllSlugChars(s: string) { forall i :: 0 <= i < |s| ==> IsSlugChar(s[i]) }

  /** .replace(/[\s_-]+/g, '-'): every maximal run of separators becomes one '-'. */
  function Collapse(s: string): (r: string)
    ensures s != [] && !IsSeparator(s[0]) ==> r != [] && r[0] == s[0]
    ensures s == [] <==> r == []
    decreases |s|
  {
    if s == [] then []
    else if IsSeparator(s[0]) then ['-'] + Collapse(DropSeparators(s[1..]))
    else [s[0]] + Collapse(s[1..])
  }

  function DropLeadingDashes(s: string): (r: string)
    ensures |r| <= |s| && r == s[|s| - |r|..]
    ensures r == [] || r[0] != '-'
  {
    if s != [] && s[0] == '-' then DropLeadingDashes(s[1..]) else s
  }

  function DropTrailingDashes(s: string): (r: string)
    ensures |r| <= |s| && r == s[..|r|]
    ensures r == [] || r[|r| - 1] != '-'
  {
    if s != [] && s[|s| - 1] == '-' then DropTrailingDashes(s[..|s| - 1]) else s
  }

  /** .replace(/^-+|-+$/g, '') */
  function TrimDashes(s: string): string
  {
    DropTrailingDashes(DropLeadingDashes(s))
  }

  /** A well-formed slug: only a-z, 0-9 and '-', no '-' at either end, no two '-' in a row. */
  predicate IsSlug(s: string) {
    AllSlugChars(s) && NoDoubleDash(s) && (s == [] || (s[0] != '-' && s[|s| - 1] != '-'))
  }

  /** Putting a slug character in front of a run of slug characters keeps it free of double
      dashes when a dash is not put before a dash. */
  lemma {:induction false} ConsKeepsSlugChars(x: char, r: string)
    requires IsSlugChar(x) && AllSlugChars(r) && NoDoubleDash(r)
    requires x == '-' ==> r == [] || r[0] != '-'
    ensures AllSlugChars([x] + r) && NoDoubleDash([x] + r)
  {
    var s := [x] + r;
    assert forall i :: 1 <= i < |s| ==> s[i] == r[i - 1];
  }

  /** Collapsing filtered text leaves slug characters with no two dashes in a row. */
  lemma {:induction false} CollapseShape(s: string)
    requires forall i :: 0 <= i < |s| ==> IsFiltered(s[i])
    ensures AllSlugChars(Collapse(s)) && NoDoubleDash(Collapse(s))
    decreases |s|
  {
    if s != [] {
      var rest := s[1..];
      assert forall i :: 0 <= i < |rest| ==> rest[i] == s[i + 1];
      if IsSeparator(s[0]) {
        var d := DropSeparators(rest);
        assert forall i :: 0 <= i < |d| ==> d[i] == rest[|rest| - |d| + i];
        CollapseShape(d);
        ConsKeepsSlugChars('-', Collapse(d));
      } else {
        CollapseShape(rest);
        ConsKeepsSlugChars(s[0], Collapse(rest));
      }
    }
  }

  lemma {:induction false} DropLeadingKeepsSlugChars(c: string)
    requires AllSlugChars(c) && NoDoubleDash(c)
    ensures var d := DropLeadingDashes(c);
            AllSlugChars(d) && NoDoubleDash(d)
    decreases |c|
  {
    if c != [] && c[0] == '-' {
      var rest := c[1..];
      assert forall i :: 0 <= i < |rest| ==> rest[i] == c[i + 1];
      DropLeadingKeepsSlugChars(rest);
    }
  }

  lemma {:induction false} DropTrailingKeepsSlugChars(d: string)
    requires AllSlugChars(d) && NoDoubleDash(d) && (d == [] || d[0] != '-')
    ensures var t := DropTrailingDashes(d);
            AllSlugChars(t) && NoDoubleDash(t) && (t == [] || t[0] != '-')
    decreases |d|
  {
    if d != [] && d[|d| - 1] == '-' {
      var init := d[..|d| - 1];
      assert forall i :: 0 <= i < |init| ==> init[i] == d[i];
      DropTrailingKeepsSlugChars(init);
    }
  }

  function Slugify(text: string): (slug: string)
    ensures IsSlug(slug)
  {
    var c := Collapse(Filter(LowerCase(text)));
    CollapseShape(Filter(LowerCase(text)));
    DropLeadingKeepsSlugChars(c);
    DropTrailingKeepsSlugChars(DropLeadingDashes(c));
    TrimDashes(c)
  }

  lemma {:induction false} LowerCaseOfSlug(s: string)
    requires AllSlugChars(s)
    ensures LowerCase(s) == s
  {
    if s != [] {
      LowerCaseOfSlug(s[1..]);
    }
  }

  lemma {:induction false} FilterOfSlug(s: string)
    requires AllSlugChars(s)
    ensures Filter(s) == s
  {
    if s != [] {
      FilterOfSlug(s[1..]);
    }
  }

  lemma {:induction false} CollapseOfSlug(s: string)
    requires AllSlugChars(s) && NoDoubleDash(s)
    ensures Collapse(s) == s
    decreases |s|
  {
    if s != [] {
      var rest := s[1..];
      assert forall i :: 0 <= i < |rest| ==> rest[i] == s[i + 1];
      assert AllSlugChars(rest) && NoDoubleDash(rest);
      if s[0] == '-' {
        assert rest == [] || !IsSeparator(rest[0]);
        assert DropSeparators(rest) == rest;
      }
      CollapseOfSlug(rest);
    }
  }

  /** A slug is left as it is. */
  lemma {:induction false} SlugifyOfSlug(s: string)
    requires IsSlug(s)
    ensures Slugify(s) == s
  {
    LowerCaseOfSlug(s);
    FilterOfSlug(s);
    CollapseOfSlug(s);
  }

  /** slugify(slugify(t)) == slugify(t) */
  lemma {:induction false} SlugifyIdempotent(text: string)
    ensures Slugify(Slugify(text)) == Slugify(text)
  {
    SlugifyOfSlug(Slugify(text));
  }
}
