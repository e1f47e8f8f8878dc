/**
 * Pricing shared by the storefront and the checkout: reading price strings,
 * resolving the cart against the catalogue, the subtotals, the clamped
 * discount, the shipping fee and the total. Money is in integer cents.
 */
module Pricing {
  import opened Wrappers
  import opened Types
  import opened Products
  import opened JsString

  /** Subtotals strictly above this (in cents) ship free. */
  const FreeShippingThreshold := 3000

  /** The flat shipping fees of the storefront and of the checkout, in cents. */
  const StorefrontFlatFee := 300
  const CheckoutFlatFee := 200

  /** `value.replace(/[^0-9.]/g, "")` */
  function KeepPriceChars(s: string): (t: string)
    ensures forall i :: 0 <= i < |t| ==> IsDecimalDigit(t[i]) || t[i] == '.'
    ensures |t| <= |s|
  {
    if s == [] then []
    else (if IsDecimalDigit(s[0]) || s[0] == '.' then [s[0]] else []) + KeepPriceChars(s[1..])
  }

  /** The position of the first `c` in `s`, or `|s|` when there is none. */
  function IndexOf(s: string, c: char): (i: nat)
    ensures i <= |s|
    ensures i < |s| ==> s[i] == c
    ensures c !in s[..i]
  {
    if s == [] then 0
    else if s[0] == c then 0
    else
      var j := IndexOf(s[1..], c);
      assert s[..j + 1] == [s[0]] + s[1..][..j];
      j + 1
  }

  /** The first two fraction digits as cents: "9" is 90, "99" is 99. */
  function FractionCents(frac: string): (c: nat)
    ensures c < 100
  {
    (if |frac| >= 1 then DigitValue(frac[0]) % 10 * 10 else 0) +
    (if |frac| >= 2 then DigitValue(frac[1]) % 10 else 0)
  }

  /**
   * `Number(value.replace(/[^0-9.]/g, "")) || 0` in cents. What is left after
   * the replace is either no dot (a whole number, "" being 0), one dot, or
   * several dots, which `Number` reads as NaN and `|| 0` turns into 0, as it
   * does ".".
   */
  function ParsePrice(value: string): (cents: nat)
  {
    var t := KeepPriceChars(value);
    var i := IndexOf(t, '.');
    if i == |t| then RadixValue(t, 10) * 100
    else
      var whole, frac := t[..i], t[i + 1..];
      if '.' in frac || (whole == [] && frac == []) then 0
      else RadixValue(whole, 10) * 100 + FractionCents(frac)
  }

  /** `"$" + (cents / 100).toFixed(2)` */
  function Dollars(cents: int): (s: string)
    ensures |s| >= 5 && s[0] == '$'
  {
    var m: nat := if cents < 0 then -cents else cents;
    "$" + (if cents < 0 then "-" else "") + NatToString(m / 100, 10) + "." +
    [DigitChar(m % 100 / 10), DigitChar(m % 10)]
  }

  /** The shape `toFixed(2)` writes: "$", an optional "-", decimal digits, ".", then exactly two digits. */
  lemma DollarsShape(cents: int)
    ensures var s := Dollars(cents);
            var start := if cents < 0 then 2 else 1;
            && (cents < 0 ==> s[1] == '-')
            && start < |s| - 3
            && (forall i :: start <= i < |s| - 3 ==> IsDecimalDigit(s[i]))
            && s[|s| - 3] == '.' && IsDecimalDigit(s[|s| - 2]) && IsDecimalDigit(s[|s| - 1])
  {
    var m: nat := if cents < 0 then -cents else cents;
    var sign := if cents < 0 then "-" else "";
    var whole := NatToString(m / 100, 10);
    var s := Dollars(cents);
    assert s == "$" + sign + whole + "." + [DigitChar(m % 100 / 10), DigitChar(m % 10)];
    forall i | 0 <= i < |whole|
      ensures IsDecimalDigit(whole[i])
    {
      assert DigitValue(whole[i]) < 10;
    }
    forall i | |sign| + 1 <= i < |s| - 3
      ensures IsDecimalDigit(s[i])
    {
      assert s[i] == whole[i - |sign| - 1];
    }
  }

  // ---- the cart resolved against the catalogue --------------------------

  datatype CartLine = CartLine(product: Product, quantity: int, color: string)

  /** `cartDetails`: the catalogue items present in the cart, in catalogue order, with their cart entries. */
  function CartDetails(catalogue: seq<Product>, cart: CartState): (d: seq<CartLine>)
    ensures |d| <= |catalogue|
    ensures forall i :: 0 <= i < |d| ==>
              d[i].product in catalogue && d[i].product.id in cart &&
              d[i].quantity == cart[d[i].product.id].quantity && d[i].color == cart[d[i].product.id].color
  {
    if catalogue == [] then []
    else
      HeadLine(catalogue[0], cart) + CartDetails(catalogue[1..], cart)
  }

  /** The position of the first catalogue item with the id, or `|catalogue|` when there is none. */
  function Position(catalogue: seq<Product>, id: string): (p: nat)
    ensures p <= |catalogue|
    ensures p < |catalogue| ==> catalogue[p].id == id
    ensures forall k :: 0 <= k < p ==> catalogue[k].id != id
  {
    if catalogue == [] then 0
    else if catalogue[0].id == id then 0
    else
      var p := Position(catalogue[1..], id);
      assert forall k :: 1 <= k < p + 1 ==> catalogue[k] == catalogue[1..][k - 1];
      p + 1
  }

  /**
   * With distinct ids the lines follow the catalogue order strictly: no item
   * has two lines, and an earlier line is an earlier catalogue item.
   */
  lemma {:induction false} CartDetailsOrdered(catalogue: seq<Product>, cart: CartState)
    requires UniqueIds(catalogue)
    ensures var d := CartDetails(catalogue, cart);
            forall i, j :: 0 <= i < j < |d| ==> Position(catalogue, d[i].product.id) < Position(catalogue, d[j].product.id)
  {
    if catalogue != [] {
      var rest := catalogue[1..];
      UniqueIdsTail(catalogue);
      CartDetailsOrdered(rest, cart);
      TailPositions(catalogue, cart);
      CartDetailsCons(catalogue, cart);
      var d := CartDetails(catalogue, cart);
      var r := CartDetails(rest, cart);
      var h := |d| - |r|;
      forall i, j | 0 <= i < j < |d|
        ensures Position(catalogue, d[i].product.id) < Position(catalogue, d[j].product.id)
      {
        assert d[j] == r[j - h];
        if i >= h {
          assert d[i] == r[i - h];
        }
      }
    }
  }

  /** Below the head, the lines' catalogue positions are one more than in the tail. */
  lemma TailPositions(catalogue: seq<Product>, cart: CartState)
    requires catalogue != [] && UniqueIds(catalogue)
    ensures var r := CartDetails(catalogue[1..], cart);
            forall i :: 0 <= i < |r| ==> Position(catalogue, r[i].product.id) == 1 + Position(catalogue[1..], r[i].product.id)
  {
    var rest := catalogue[1..];
    var r := CartDetails(rest, cart);
    UniqueIdsTail(catalogue);
    forall i | 0 <= i < |r|
      ensures Position(catalogue, r[i].product.id) == 1 + Position(rest, r[i].product.id)
    {
      var k :| 0 <= k < |rest| && rest[k] == r[i].product;
      assert r[i].product.id != catalogue[0].id;
    }
  }

  /** Every catalogue item whose id is a cart key has its line. */
  lemma {:induction false} CartDetailsComplete(catalogue: seq<Product>, cart: CartState, j: nat)
    requires j < |catalogue| && catalogue[j].id in cart
    ensures exists i :: 0 <= i < |CartDetails(catalogue, cart)| && CartDetails(catalogue, cart)[i].product == catalogue[j]
  {
    var d := CartDetails(catalogue, cart);
    if j == 0 {
      assert d[0].product == catalogue[0];
    } else {
      var rest := CartDetails(catalogue[1..], cart);
      CartDetailsComplete(catalogue[1..], cart, j - 1);
      var i :| 0 <= i < |rest| && rest[i].product == catalogue[1..][j - 1];
      var h := |d| - |rest|;
      assert d[h + i] == rest[i];
    }
  }

  /** The unit price before discount: `parsePrice(price)`. */
  function ListPrice(p: Product): nat {
    ParsePrice(p.price)
  }

  /** The unit price after discount: `parsePrice(newPrice ?? price)`. */
  function SalePrice(p: Product): nat {
    ParsePrice(p.newPrice.GetOr(p.price))
  }

  /** What one line costs after discount. */
  function LinePrice(line: CartLine): int {
    SalePrice(line.product) * line.quantity
  }

  function SubtotalBefore(lines: seq<CartLine>): int {
    if lines == [] then 0 else ListPrice(lines[0].product) * lines[0].quantity + SubtotalBefore(lines[1..])
  }

  function SubtotalAfter(lines: seq<CartLine>): int {
    if lines == [] then 0 else LinePrice(lines[0]) + SubtotalAfter(lines[1..])
  }

  datatype PricingSnapshot = PricingSnapshot(
    subtotalBeforeDiscount: int,
    subtotalAfterDiscount: int,
    discountAmount: int,
    shippingFee: int,
    orderTotal: int
  )

  /** Free for an empty subtotal and for one strictly above the threshold, else the flat fee. */
  function ShippingFee(subtotal: int, flatFee: nat): (fee: nat)
    ensures fee == 0 || fee == flatFee
    ensures (fee == 0) <==> (subtotal == 0 || subtotal > FreeShippingThreshold || flatFee == 0)
  {
    if subtotal == 0 then 0 else if subtotal > FreeShippingThreshold then 0 else flatFee
  }

  /** The pricing block of either page, for the given flat shipping fee. */
  function ComputePricing(catalogue: seq<Product>, cart: CartState, flatFee: nat): (p: PricingSnapshot)
    ensures p.discountAmount >= 0 && p.discountAmount >= p.subtotalBeforeDiscount - p.subtotalAfterDiscount
    ensures p.discountAmount == 0 || p.discountAmount == p.subtotalBeforeDiscount - p.subtotalAfterDiscount
    ensures p.shippingFee == ShippingFee(p.subtotalAfterDiscount, flatFee)
    ensures p.orderTotal == p.subtotalAfterDiscount + p.shippingFee
  {
    var lines := CartDetails(catalogue, cart);
    var before := SubtotalBefore(lines);
    var after := SubtotalAfter(lines);
    var discount := if before - after > 0 then before - after else 0;
    var fee := ShippingFee(after, flatFee);
    PricingSnapshot(before, after, discount, fee, after + fee)
  }

  // ---- properties -------------------------------------------------------

  lemma {:induction false} KeepPriceCharsConcat(a: string, b: string)
    ensures KeepPriceChars(a + b) == KeepPriceChars(a) + KeepPriceChars(b)
  {
    if a == [] {
      assert a + b == b;
    } else {
      assert (a + b)[0] == a[0];
      assert (a + b)[1..] == a[1..] + b;
      KeepPriceCharsConcat(a[1..], b);
    }
  }

  lemma {:induction false} KeepPriceCharsFixed(s: string)
    requires forall i :: 0 <= i < |s| ==> IsDecimalDigit(s[i]) || s[i] == '.'
    ensures KeepPriceChars(s) == s
  {
    if s != [] {
      KeepPriceCharsFixed(s[1..]);
    }
  }

  lemma {:induction false} KeepPriceCharsNone(s: string)
    requires forall i :: 0 <= i < |s| ==> !IsDecimalDigit(s[i]) && s[i] != '.'
    ensures KeepPriceChars(s) == []
  {
    if s != [] {
      KeepPriceCharsNone(s[1..]);
    }
  }

  predicate AllDecimalDigits(s: string) {
    forall i :: 0 <= i < |s| ==> IsDecimalDigit(s[i])
  }

  lemma NoDot(s: string)
    requires AllDecimalDigits(s)
    ensures '.' !in s
  {
    forall i | 0 <= i < |s|
      ensures s[i] != '.'
    {
      assert IsDecimalDigit(s[i]);
    }
  }

  /** The only dot of whole "." frac is the one after the whole part. */
  lemma DollarFormDot(whole: string, frac: string)
    requires AllDecimalDigits(whole) && AllDecimalDigits(frac)
    ensures IndexOf(whole + "." + frac, '.') == |whole|
    ensures '.' !in frac
  {
    NoDot(whole);
    NoDot(frac);
    assert whole + "." + frac == whole + ("." + frac);
    PrefixIndexOf(whole, "." + frac);
  }

  /** The replace keeps exactly the digits and the dot of "$" whole "." frac. */
  lemma KeepDollarForm(whole: string, frac: string)
    requires AllDecimalDigits(whole) && AllDecimalDigits(frac)
    ensures KeepPriceChars("$" + whole + "." + frac) == whole + "." + frac
  {
    var t := whole + "." + frac;
    forall i | 0 <= i < |t|
      ensures IsDecimalDigit(t[i]) || t[i] == '.'
    {
      if i < |whole| {
        assert t[i] == whole[i];
      } else if i > |whole| {
        assert t[i] == frac[i - |whole| - 1];
      }
    }
    KeepPriceCharsFixed(t);
    assert "$" + whole + "." + frac == "$" + t;
    KeepPriceCharsConcat("$", t);
    assert KeepPriceChars("$") == [];
  }

  /** A kept string with one dot reads as its whole part in dollars plus its fraction in cents. */
  lemma ParseOneDot(value: string, whole: string, frac: string)
    requires KeepPriceChars(value) == whole + "." + frac
    requires IndexOf(whole + "." + frac, '.') == |whole|
    requires '.' !in frac && whole != []
    ensures ParsePrice(value) == RadixValue(whole, 10) * 100 + FractionCents(frac)
  {
    var t := whole + "." + frac;
    assert t[..|whole|] == whole;
    assert t[|whole| + 1..] == frac;
  }

  /** A price written as "$" digits "." two digits reads as the digits in cents. */
  lemma ParseDollarForm(whole: string, frac: string)
    requires whole != [] && AllDecimalDigits(whole) && |frac| == 2 && AllDecimalDigits(frac)
    ensures ParsePrice("$" + whole + "." + frac) == RadixValue(whole, 10) * 100 + FractionCents(frac)
  {
    KeepDollarForm(whole, frac);
    DollarFormDot(whole, frac);
    ParseOneDot("$" + whole + "." + frac, whole, frac);
  }

  /** The cents of `m` are its tens digit and its units digit. */
  lemma CentsDigits(m: nat)
    ensures m % 100 / 10 < 10 && m % 10 < 10
    ensures m % 100 / 10 * 10 + m % 10 == m % 100
  {
    var r := m % 100;
    var t, u := r / 10, r % 10;
    assert r == 10 * t + u;
    UnitsDigit(m, 10 * (m / 100) + t, u);
  }

  lemma UnitsDigit(m: nat, k: int, u: int)
    requires m == 10 * k + u && 0 <= u < 10
    ensures m % 10 == u
  {
  }

  lemma TwoDigits(m: nat)
    ensures FractionCents([DigitChar(m % 100 / 10), DigitChar(m % 10)]) == m % 100
  {
    var a, b := m % 100 / 10, m % 10;
    CentsDigits(m);
    DigitCharValue(a);
    DigitCharValue(b);
    UnitsDigit(a, 0, a);
    UnitsDigit(b, 0, b);
    assert FractionCents([DigitChar(a), DigitChar(b)]) == a * 10 + b;
  }

  /** What `Dollars` writes, `ParsePrice` reads back: every label the checkout builds denotes its amount. */
  lemma DollarsRoundTrip(cents: nat)
    ensures ParsePrice(Dollars(cents)) == cents
  {
    var whole := NatToString(cents / 100, 10);
    var frac := [DigitChar(cents % 100 / 10), DigitChar(cents % 10)];
    assert Dollars(cents) == "$" + whole + "." + frac;
    assert AllDecimalDigits(frac) by {
      assert IsDecimalDigit(DigitChar(cents % 100 / 10)) && IsDecimalDigit(DigitChar(cents % 10));
    }
    ParseDollarForm(whole, frac);
    NatToStringRoundTrip(cents / 100, 10);
    TwoDigits(cents);
  }

  lemma {:induction false} PrefixIndexOf(a: string, b: string)
    requires '.' !in a && b != [] && b[0] == '.'
    ensures IndexOf(a + b, '.') == |a|
  {
    if a != [] {
      assert (a + b)[1..] == a[1..] + b;
      PrefixIndexOf(a[1..], b);
    }
  }

  lemma DigitsTwelve() ensures RadixValue("12", 10) == 12 { assert "12"[..1] == "1"; assert "1"[..0] == []; }
  lemma DigitsSix() ensures RadixValue("6", 10) == 6 { assert "6"[..0] == []; }
  lemma DigitsTwenty() ensures RadixValue("20", 10) == 20 { assert "20"[..1] == "2"; assert "2"[..0] == []; }
  lemma DigitsFourteen() ensures RadixValue("14", 10) == 14 { assert "14"[..1] == "1"; assert "1"[..0] == []; }

  /** A catalogue price "$" whole "." two digits, read in cents. */
  lemma LiteralPrice(s: string, whole: string, frac: string, w: nat)
    requires s == "$" + whole + "." + frac
    requires whole != [] && AllDecimalDigits(whole) && |frac| == 2 && AllDecimalDigits(frac)
    requires RadixValue(whole, 10) == w
    ensures ParsePrice(s) == w * 100 + FractionCents(frac)
  {
    ParseDollarForm(whole, frac);
  }

  lemma NinetyNine() ensures FractionCents("99") == 99 {}

  lemma GripListPrice() ensures ListPrice(Grip) == 1299
  {
    DigitsTwelve();
    NinetyNine();
    LiteralPrice("$12.99", "12", "99", 12);
  }

  lemma GripSalePrice() ensures SalePrice(Grip) == 699
  {
    DigitsSix();
    NinetyNine();
    LiteralPrice("$6.99", "6", "99", 6);
  }

  lemma LightListPrice() ensures ListPrice(Light) == 2099
  {
    DigitsTwenty();
    NinetyNine();
    LiteralPrice("$20.99", "20", "99", 20);
  }

  lemma LightSalePrice() ensures SalePrice(Light) == 1499
  {
    DigitsFourteen();
    NinetyNine();
    LiteralPrice("$14.99", "14", "99", 14);
  }

  /** The catalogue's prices in cents: "$12.99" is 1299, and so on. */
  lemma CataloguePrices()
    ensures ListPrice(Grip) == 1299 && SalePrice(Grip) == 699
    ensures ListPrice(Light) == 2099 && SalePrice(Light) == 1499
  {
    GripListPrice();
    GripSalePrice();
    LightListPrice();
    LightSalePrice();
  }

  /** What is left after the replace being empty, a lone dot or holding two dots reads as 0. */
  lemma ParsePriceUnreadable(value: string, i: nat, j: nat)
    requires var t := KeepPriceChars(value);
             t == [] || t == "." || (i < j < |t| && t[i] == '.' && t[j] == '.')
    ensures ParsePrice(value) == 0
  {
    var t := KeepPriceChars(value);
    if i < j < |t| && t[i] == '.' && t[j] == '.' {
      var k := IndexOf(t, '.');
      assert t[..k] == t[..k];
      assert k <= i by {
        assert forall m :: 0 <= m < k ==> t[m] == t[..k][m];
      }
      assert '.' in t[k + 1..] by {
        assert t[k + 1..][j - k - 1] == t[j];
      }
    }
  }

  /** `cartDetails` is empty exactly when no catalogue id is a cart key. */
  lemma CartDetailsEmpty(catalogue: seq<Product>, cart: CartState)
    ensures CartDetails(catalogue, cart) == [] <==> forall j :: 0 <= j < |catalogue| ==> catalogue[j].id !in cart
  {
    var d := CartDetails(catalogue, cart);
    if d != [] {
      assert d[0].product in catalogue && d[0].product.id in cart;
    }
  }

  /** Only the cart entries under catalogue ids matter: carts that agree there price alike. */
  lemma {:induction false} CartDetailsAgree(catalogue: seq<Product>, cart: CartState, other: CartState)
    requires forall j :: 0 <= j < |catalogue| ==>
               (catalogue[j].id in cart <==> catalogue[j].id in other) &&
               (catalogue[j].id in cart ==> cart[catalogue[j].id] == other[catalogue[j].id])
    ensures CartDetails(catalogue, cart) == CartDetails(catalogue, other)
  {
    if catalogue != [] {
      CartDetailsAgree(catalogue[1..], cart, other);
    }
  }

  lemma PricingDependsOnCatalogueIds(catalogue: seq<Product>, cart: CartState, other: CartState, flatFee: nat)
    requires forall j :: 0 <= j < |catalogue| ==>
               (catalogue[j].id in cart <==> catalogue[j].id in other) &&
               (catalogue[j].id in cart ==> cart[catalogue[j].id] == other[catalogue[j].id])
    ensures ComputePricing(catalogue, cart, flatFee) == ComputePricing(catalogue, other, flatFee)
  {
    CartDetailsAgree(catalogue, cart, other);
  }

  /** With positive quantities no subtotal, fee or total is negative. */
  lemma {:induction false} SubtotalsNonNegative(lines: seq<CartLine>)
    requires forall i :: 0 <= i < |lines| ==> lines[i].quantity > 0
    ensures SubtotalBefore(lines) >= 0 && SubtotalAfter(lines) >= 0
  {
    if lines != [] {
      SubtotalsNonNegative(lines[1..]);
      MulNonNegative(ListPrice(lines[0].product), lines[0].quantity);
      MulNonNegative(SalePrice(lines[0].product), lines[0].quantity);
    }
  }

  lemma PricingNonNegative(catalogue: seq<Product>, cart: CartState, flatFee: nat)
    requires AllPositive(cart)
    ensures var p := ComputePricing(catalogue, cart, flatFee);
            p.subtotalBeforeDiscount >= 0 && p.subtotalAfterDiscount >= 0 && p.orderTotal >= p.subtotalAfterDiscount
  {
    SubtotalsNonNegative(CartDetails(catalogue, cart));
  }

  /** What the discount saves on one line: its price before discount less its price after. */
  function LineSavings(l: CartLine): int {
    ListPrice(l.product) * l.quantity - LinePrice(l)
  }

  /** What the discount buys: the savings line by line. */
  function Savings(lines: seq<CartLine>): int {
    if lines == [] then 0 else LineSavings(lines[0]) + Savings(lines[1..])
  }

  lemma {:induction false} SavingsIsDifference(lines: seq<CartLine>)
    ensures Savings(lines) == SubtotalBefore(lines) - SubtotalAfter(lines)
  {
    if lines != [] {
      SavingsIsDifference(lines[1..]);
    }
  }

  lemma MulMonotone(a: int, b: int, q: int)
    requires b <= a && q >= 0
    ensures b * q <= a * q
  {
    MulNonNegative(a - b, q);
    assert (a - b) * q == a * q - b * q;
  }

  lemma LineSavingsNonNegative(l: CartLine)
    requires l.quantity > 0 && SalePrice(l.product) <= ListPrice(l.product)
    ensures LineSavings(l) >= 0
  {
    MulMonotone(ListPrice(l.product), SalePrice(l.product), l.quantity);
  }

  lemma {:induction false} SavingsNonNegative(lines: seq<CartLine>)
    requires forall i :: 0 <= i < |lines| ==>
               lines[i].quantity > 0 && SalePrice(lines[i].product) <= ListPrice(lines[i].product)
    ensures Savings(lines) >= 0
  {
    if lines != [] {
      LineSavingsNonNegative(lines[0]);
      SavingsNonNegative(lines[1..]);
    }
  }

  lemma MulNonNegative(a: int, b: int)
    requires a >= 0 && b >= 0
    ensures a * b >= 0
  {
  }

  /**
   * When no sale price exceeds its list price, the clamp never bites: the
   * discount is exactly the sum of the per-line savings.
   */
  lemma DiscountIsSavings(catalogue: seq<Product>, cart: CartState, flatFee: nat)
    requires AllPositive(cart)
    requires forall j :: 0 <= j < |catalogue| ==> SalePrice(catalogue[j]) <= ListPrice(catalogue[j])
    ensures ComputePricing(catalogue, cart, flatFee).discountAmount == Savings(CartDetails(catalogue, cart))
  {
    var lines := CartDetails(catalogue, cart);
    SavingsIsDifference(lines);
    SavingsNonNegative(lines);
  }

  /** The unit sale price of the catalogue item with this id, 0 when there is none. */
  function SalePriceOf(catalogue: seq<Product>, id: string): nat {
    match Find(catalogue, id)
    case Some(p) => SalePrice(p)
    case None => 0
  }

  function ListPriceOf(catalogue: seq<Product>, id: string): nat {
    match Find(catalogue, id)
    case Some(p) => ListPrice(p)
    case None => 0
  }

  lemma UniqueIdsTail(catalogue: seq<Product>)
    requires catalogue != [] && UniqueIds(catalogue)
    ensures UniqueIds(catalogue[1..])
    ensures forall j :: 0 <= j < |catalogue[1..]| ==> catalogue[1..][j].id != catalogue[0].id
  {
    var rest := catalogue[1..];
    forall i, j | 0 <= i < j < |rest| ensures rest[i].id != rest[j].id {
      assert rest[i] == catalogue[i + 1] && rest[j] == catalogue[j + 1];
    }
    forall j | 0 <= j < |rest| ensures rest[j].id != catalogue[0].id {
      assert rest[j] == catalogue[j + 1];
    }
  }

  lemma {:induction false} SubtotalsConcat(a: seq<CartLine>, b: seq<CartLine>)
    ensures SubtotalAfter(a + b) == SubtotalAfter(a) + SubtotalAfter(b)
    ensures SubtotalBefore(a + b) == SubtotalBefore(a) + SubtotalBefore(b)
  {
    if a == [] {
      assert a + b == b;
    } else {
      assert (a + b)[0] == a[0];
      assert (a + b)[1..] == a[1..] + b;
      SubtotalsConcat(a[1..], b);
    }
  }

  /** The first catalogue item's line, if its id is in the cart. */
  function HeadLine(p: Product, cart: CartState): seq<CartLine> {
    if p.id in cart then [CartLine(p, cart[p.id].quantity, cart[p.id].color)] else []
  }

  lemma CartDetailsCons(catalogue: seq<Product>, cart: CartState)
    requires catalogue != []
    ensures CartDetails(catalogue, cart) == HeadLine(catalogue[0], cart) + CartDetails(catalogue[1..], cart)
  {
  }

  /** How many of `id` the cart holds, 0 when it has no entry. */
  function Quantity(cart: CartState, id: string): int {
    if id in cart then cart[id].quantity else 0
  }

  /**
   * One entry's share of the subtotals: take it out, and the rest is what
   * the other entries cost.
   */
  lemma {:induction false} SubtotalsSplit(catalogue: seq<Product>, cart: CartState, id: string)
    requires UniqueIds(catalogue)
    ensures SubtotalAfter(CartDetails(catalogue, cart)) ==
              SubtotalAfter(CartDetails(catalogue, cart - {id})) + SalePriceOf(catalogue, id) * Quantity(cart, id)
    ensures SubtotalBefore(CartDetails(catalogue, cart)) ==
              SubtotalBefore(CartDetails(catalogue, cart - {id})) + ListPriceOf(catalogue, id) * Quantity(cart, id)
  {
    if catalogue != [] {
      UniqueIdsTail(catalogue);
      if catalogue[0].id == id {
        SplitAtHead(catalogue, cart, id);
      } else {
        SubtotalsSplit(catalogue[1..], cart, id);
        SplitPastHead(catalogue, cart, id);
      }
    }
  }

  lemma SplitAtHead(catalogue: seq<Product>, cart: CartState, id: string)
    requires catalogue != [] && catalogue[0].id == id
    requires forall j :: 0 <= j < |catalogue[1..]| ==> catalogue[1..][j].id != id
    ensures SubtotalAfter(CartDetails(catalogue, cart)) ==
              SubtotalAfter(CartDetails(catalogue, cart - {id})) + SalePriceOf(catalogue, id) * Quantity(cart, id)
    ensures SubtotalBefore(CartDetails(catalogue, cart)) ==
              SubtotalBefore(CartDetails(catalogue, cart - {id})) + ListPriceOf(catalogue, id) * Quantity(cart, id)
  {
    var p, rest := catalogue[0], catalogue[1..];
    var without := cart - {id};
    var tail := CartDetails(rest, cart);
    CartDetailsAgree(rest, cart, without);
    HeadShare(p, cart, id);
    CartDetailsCons(catalogue, without);
    assert CartDetails(catalogue, without) == tail by {
      assert HeadLine(p, without) + CartDetails(rest, without) == [] + tail == tail;
    }
    CartDetailsCons(catalogue, cart);
    SubtotalsConcat(HeadLine(p, cart), tail);
    assert Find(catalogue, id) == Some(p);
    assert SalePriceOf(catalogue, id) == SalePrice(p) && ListPriceOf(catalogue, id) == ListPrice(p);
  }

  lemma SplitPastHead(catalogue: seq<Product>, cart: CartState, id: string)
    requires catalogue != [] && catalogue[0].id != id
    requires SubtotalAfter(CartDetails(catalogue[1..], cart)) ==
               SubtotalAfter(CartDetails(catalogue[1..], cart - {id})) + SalePriceOf(catalogue[1..], id) * Quantity(cart, id)
    requires SubtotalBefore(CartDetails(catalogue[1..], cart)) ==
               SubtotalBefore(CartDetails(catalogue[1..], cart - {id})) + ListPriceOf(catalogue[1..], id) * Quantity(cart, id)
    ensures SubtotalAfter(CartDetails(catalogue, cart)) ==
              SubtotalAfter(CartDetails(catalogue, cart - {id})) + SalePriceOf(catalogue, id) * Quantity(cart, id)
    ensures SubtotalBefore(CartDetails(catalogue, cart)) ==
              SubtotalBefore(CartDetails(catalogue, cart - {id})) + ListPriceOf(catalogue, id) * Quantity(cart, id)
  {
    var p, rest := catalogue[0], catalogue[1..];
    var without := cart - {id};
    CartDetailsCons(catalogue, cart);
    CartDetailsCons(catalogue, without);
    SubtotalsConcat(HeadLine(p, cart), CartDetails(rest, cart));
    SubtotalsConcat(HeadLine(p, without), CartDetails(rest, without));
    assert HeadLine(p, without) == HeadLine(p, cart);
    assert Find(catalogue, id) == Find(rest, id);
    assert SalePriceOf(catalogue, id) == SalePriceOf(rest, id);
    assert ListPriceOf(catalogue, id) == ListPriceOf(rest, id);
  }

  lemma HeadShare(p: Product, cart: CartState, id: string)
    requires p.id == id
    ensures HeadLine(p, cart - {id}) == []
    ensures SubtotalAfter(HeadLine(p, cart)) == SalePrice(p) * Quantity(cart, id)
    ensures SubtotalBefore(HeadLine(p, cart)) == ListPrice(p) * Quantity(cart, id)
  {
    if id in cart {
      assert HeadLine(p, cart)[1..] == [];
    }
  }

  lemma TwoGripsDetails(color: string)
    ensures CartDetails(FeaturedProducts, map["grip" := CartItem(2, color)]) == [CartLine(Grip, 2, color)]
  {
    var cart := map["grip" := CartItem(2, color)];
    CartDetailsCons(FeaturedProducts, cart);
    CartDetailsCons([Light], cart);
    assert FeaturedProducts[1..] == [Light];
    assert [Light][1..] == [];
    assert HeadLine(Light, cart) == [];
    assert HeadLine(Grip, cart) == [CartLine(Grip, 2, color)];
  }

  /** Scenario: two grips cost 25.98 before and 13.98 after the 12.00 discount; each page adds its own fee. */
  lemma TwoGripsExample(color: string)
    ensures var p := ComputePricing(FeaturedProducts, map["grip" := CartItem(2, color)], StorefrontFlatFee);
            p == PricingSnapshot(2598, 1398, 1200, 300, 1698)
    ensures var p := ComputePricing(FeaturedProducts, map["grip" := CartItem(2, color)], CheckoutFlatFee);
            p == PricingSnapshot(2598, 1398, 1200, 200, 1598)
  {
    GripListPrice();
    GripSalePrice();
    var line := CartLine(Grip, 2, color);
    TwoGripsDetails(color);
    assert [line][1..] == [];
    assert SubtotalAfter([line]) == 1398;
    assert SubtotalBefore([line]) == 2598;
  }

  /** Free shipping starts strictly above the threshold: a subtotal of exactly 30.00 pays the fee. */
  lemma FreeShippingBoundary(flatFee: nat)
    ensures ShippingFee(FreeShippingThreshold, flatFee) == flatFee
    ensures ShippingFee(FreeShippingThreshold + 1, flatFee) == 0
    ensures ShippingFee(0, flatFee) == 0
  {
  }
}
