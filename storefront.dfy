/**
 * The storefront page's cart store: component state, the handlers that
 * replace it, the two deferred hydration frames and the two persistence
 * effects that write browser storage.
 */
module Storefront {
  import opened Wrappers
  import opened Json
  import opened Types
  import opened Products
  import opened Cart
  import opened Pricing

  const SelectedColorsKey := "uc-selected-colors"

  /** The `reduce` of `createDefaultSelectedColors` over a catalogue: each item's first colour, under its id. */
  method FirstColors(catalogue: seq<Product>) returns (acc: map<string, string>)
    requires UniqueIds(catalogue)
    ensures acc.Keys == set j | 0 <= j < |catalogue| :: catalogue[j].id
    ensures forall j :: 0 <= j < |catalogue| ==> acc[catalogue[j].id] == FirstColor(catalogue[j])
  {
    acc := map[];
    for i := 0 to |catalogue|
      invariant acc.Keys == set j | 0 <= j < i :: catalogue[j].id
      invariant forall j :: 0 <= j < i ==> acc[catalogue[j].id] == FirstColor(catalogue[j])
    {
      var product := catalogue[i];
      acc := acc[product.id := FirstColor(product)];
    }
  }

  /** The two default selections, spelled out. */
  lemma DefaultSelectionsLiteral(acc: map<string, string>)
    requires acc.Keys == set j | 0 <= j < |FeaturedProducts| :: FeaturedProducts[j].id
    requires forall j :: 0 <= j < |FeaturedProducts| ==> acc[FeaturedProducts[j].id] == FirstColor(FeaturedProducts[j])
    ensures acc == map["grip" := "gray", "light" := "black"]
  {
    assert FeaturedProducts[0].id == "grip" && FeaturedProducts[1].id == "light";
    assert acc.Keys == {"grip", "light"};
    assert acc["grip"] == FirstColor(FeaturedProducts[0]) == "gray";
    assert acc["light"] == FirstColor(FeaturedProducts[1]) == "black";
  }

  /** `createDefaultSelectedColors()`: every catalogue item's default colour, under its id. */
  method CreateDefaultSelectedColors() returns (acc: map<string, string>)
    ensures acc.Keys == set j | 0 <= j < |FeaturedProducts| :: FeaturedProducts[j].id
    ensures forall j :: 0 <= j < |FeaturedProducts| ==> acc[FeaturedProducts[j].id] == GetDefaultColor(FeaturedProducts[j].id)
    ensures acc == map["grip" := "gray", "light" := "black"]
  {
    FeaturedProductsWellFormed();
    acc := FirstColors(FeaturedProducts);
    forall j | 0 <= j < |FeaturedProducts|
      ensures acc[FeaturedProducts[j].id] == GetDefaultColor(FeaturedProducts[j].id)
    {
      DefaultColorAt(FeaturedProducts, j);
    }
    DefaultSelectionsLiteral(acc);
  }

  // ---- the state updaters the handlers pass to the setters ---------------

  /** `color ?? selectedColors[productId] ?? getDefaultColor(productId)` */
  function AppliedColor(color: Option<string>, selected: map<string, string>, id: string): (c: string)
    ensures color.Some? ==> c == color.value
    ensures color.None? && id in selected ==> c == selected[id]
    ensures color.None? && id !in selected ==> c == GetDefaultColor(id)
  {
    match color
    case Some(c) => c
    case None => if id in selected then selected[id] else GetDefaultColor(id)
  }

  /** `incrementProduct`'s updater: one more of `id`, in `color`, whatever colour it had. */
  function IncrementCart(cart: CartState, id: string, color: string): (r: CartState)
    ensures id in r && r[id].color == color
    ensures r[id].quantity == (if id in cart then cart[id].quantity + 1 else 1)
    ensures forall k :: k != id ==> (k in r <==> k in cart)
    ensures forall k :: k != id && k in cart ==> r[k] == cart[k]
    ensures AllPositive(cart) ==> AllPositive(r)
  {
    cart[id := CartItem(Quantity(cart, id) + 1, color)]
  }

  /** `decrementProduct`'s updater: one fewer of `id`; the entry goes when nothing would be left. */
  function DecrementCart(cart: CartState, id: string): (r: CartState)
    ensures id !in cart ==> r == cart
    ensures id in cart && cart[id].quantity - 1 <= 0 ==> id !in r
    ensures id in cart && cart[id].quantity - 1 > 0 ==>
              id in r && r[id].quantity == cart[id].quantity - 1 && r[id].color == cart[id].color
    ensures forall k :: k != id ==> (k in r <==> k in cart)
    ensures forall k :: k != id && k in cart ==> r[k] == cart[k]
    ensures AllPositive(cart) ==> AllPositive(r)
  {
    if id !in cart then cart
    else
      var current := cart[id];
      var next := current.quantity - 1;
      if next <= 0 then cart - {id}
      else cart[id := current.(quantity := next)]
  }

  /** Whether the cart setter in `handleColorChange` produces a new cart. */
  predicate RecolorChanges(cart: CartState, id: string, color: string) {
    id in cart && cart[id].color != color
  }

  /** `handleColorChange`'s cart updater: recolour an existing entry; never create one. */
  function RecolorCart(cart: CartState, id: string, color: string): (r: CartState)
    ensures r.Keys == cart.Keys
    ensures id in cart ==> r[id] == CartItem(cart[id].quantity, color)
    ensures forall k :: k != id && k in cart ==> r[k] == cart[k]
    ensures !RecolorChanges(cart, id, color) ==> r == cart
    ensures AllPositive(cart) ==> AllPositive(r)
  {
    if !RecolorChanges(cart, id, color) then cart
    else cart[id := cart[id].(color := color)]
  }

  /** Whether the selection setter in `handleColorChange` produces a new map. */
  predicate SelectionChanges(selected: map<string, string>, id: string, color: string) {
    !(id in selected && selected[id] == color)
  }

  /** Recolouring twice with the same colour: the second call replaces neither map, so nothing is written again. */
  lemma ColorChangeTwice(cart: CartState, selected: map<string, string>, id: string, color: string)
    ensures !SelectionChanges(selected[id := color], id, color)
    ensures !RecolorChanges(RecolorCart(cart, id, color), id, color)
    ensures RecolorCart(RecolorCart(cart, id, color), id, color) == RecolorCart(cart, id, color)
  {
  }

  // ---- the two hydration merges -----------------------------------------

  /** The colours the entries under `done` pin: their truthy (non-empty) colours, under their ids. */
  function Pinned(cart: CartState, done: set<string>): map<string, string> {
    map k | k in cart && k in done && cart[k].color != "" :: cart[k].color
  }

  /** The selections after the cart frame: every colour the hydrated cart pins, over `prev`. */
  function CartColorsMerged(prev: map<string, string>, cart: CartState): (r: map<string, string>)
    ensures forall k :: k in r <==> k in prev || (k in cart && cart[k].color != "")
    ensures forall k :: k in cart && cart[k].color != "" ==> r[k] == cart[k].color
    ensures forall k :: k in prev && !(k in cart && cart[k].color != "") ==> r[k] == prev[k]
  {
    prev + Pinned(cart, cart.Keys)
  }

  lemma PinnedStep(prev: map<string, string>, cart: CartState, done: set<string>, id: string)
    requires id in cart
    ensures cart[id].color != "" ==>
              prev + Pinned(cart, done + {id}) == (prev + Pinned(cart, done))[id := cart[id].color]
    ensures cart[id].color == "" ==> prev + Pinned(cart, done + {id}) == prev + Pinned(cart, done)
  {
  }

  /** The `forEach` over the hydrated cart, assigning into a copy of the previous selections. */
  method MergeCartColors(prev: map<string, string>, cart: CartState) returns (merged: map<string, string>)
    ensures merged == CartColorsMerged(prev, cart)
  {
    merged := prev;
    var remaining := cart.Keys;
    assert Pinned(cart, cart.Keys - remaining) == map[];
    while remaining != {}
      invariant remaining <= cart.Keys
      invariant merged == prev + Pinned(cart, cart.Keys - remaining)
      decreases remaining
    {
      var id :| id in remaining;
      PinnedStep(prev, cart, cart.Keys - remaining, id);
      assert cart.Keys - (remaining - {id}) == (cart.Keys - remaining) + {id};
      if cart[id].color != "" {
        merged := merged[id := cart[id].color];
      }
      remaining := remaining - {id};
    }
    assert cart.Keys - remaining == cart.Keys;
  }

  /** The string-valued entries of a stored selections object. */
  function StringValues(entries: map<string, JsonValue>): map<string, string> {
    map k | k in entries && entries[k].JString? :: entries[k].s
  }

  /**
   * The selections after the colours frame: a stored object's string values
   * override `prev`; anything unreadable leaves `prev` as it was.
   */
  function StoredSelectionsMerged(prev: map<string, string>, stored: Option<StoredString>): (r: map<string, string>)
    ensures prev.Keys <= r.Keys
    ensures stored.None? || stored.value.Malformed? ==> r == prev
    ensures stored.Some? && stored.value.Serialized? ==>
              match ObjectEntries(stored.value.value)
              case None => r == prev
              case Some(entries) =>
                && (forall k :: k in entries && entries[k].JString? ==> k in r && r[k] == entries[k].s)
                && (forall k :: k in r ==> k in prev || (k in entries && entries[k].JString?))
                && (forall k :: k in prev && !(k in entries && entries[k].JString?) ==> r[k] == prev[k])
  {
    if stored.None? || stored.value == EmptyString then prev
    else
      match Parse(stored.value)
      case None => prev
      case Some(parsed) =>
        match ObjectEntries(parsed)
        case None => prev
        case Some(entries) => prev + StringValues(entries)
  }

  /** The `forEach` over the stored selections, assigning into a copy of the previous ones. */
  method MergeSelections(prev: map<string, string>, entries: map<string, JsonValue>) returns (merged: map<string, string>)
    ensures merged == prev + StringValues(entries)
  {
    merged := prev;
    var remaining := entries.Keys;
    while remaining != {}
      invariant remaining <= entries.Keys
      invariant merged == prev + map k | k in entries && k !in remaining && entries[k].JString? :: entries[k].s
      decreases remaining
    {
      var id :| id in remaining;
      if entries[id].JString? {
        merged := merged[id := entries[id].s];
      }
      remaining := remaining - {id};
    }
  }

  /** `JSON.stringify(selectedColors)` */
  function SelectionsJson(selected: map<string, string>): JsonValue {
    JObject(map k | k in selected :: JString(selected[k]))
  }

  /** Reading back stored selections restores them over whatever the page started with. */
  lemma SelectionsRoundTrip(prev: map<string, string>, selected: map<string, string>)
    ensures StoredSelectionsMerged(prev, Some(Stringify(SelectionsJson(selected)))) == prev + selected
  {
    var entries := map k | k in selected :: JString(selected[k]);
    assert StringValues(entries) == selected;
  }

  /** Unreadable or non-object stored selections are ignored. */
  lemma MalformedSelectionsIgnored(prev: map<string, string>, stored: Option<StoredString>)
    requires stored.None? || stored.value.Malformed? ||
             (stored.value.Serialized? && !stored.value.value.JObject? && !stored.value.value.JArray?)
    ensures StoredSelectionsMerged(prev, stored) == prev
  {
  }

  /** A non-string stored selection leaves that key's previous colour in place. */
  lemma NonStringSelectionIgnored(prev: map<string, string>, entries: map<string, JsonValue>, id: string)
    requires id in entries && !entries[id].JString?
    ensures var r := StoredSelectionsMerged(prev, Some(Stringify(JObject(entries))));
            (id in r <==> id in prev) && (id in prev ==> r[id] == prev[id])
  {
  }

  // ---- how the handlers move the pricing ---------------------------------

  lemma MulShift(p: int, a: int, b: int, d: int)
    requires b == a + d
    ensures p * b == p * a + p * d
  {
  }

  /**
   * Two carts that differ only under `id` differ in their subtotals by that
   * item's unit prices times the difference in its quantity.
   */
  lemma SubtotalsShift(catalogue: seq<Product>, cart: CartState, next: CartState, id: string, delta: int)
    requires UniqueIds(catalogue)
    requires next - {id} == cart - {id}
    requires Quantity(next, id) == Quantity(cart, id) + delta
    ensures SubtotalAfter(CartDetails(catalogue, next)) ==
              SubtotalAfter(CartDetails(catalogue, cart)) + SalePriceOf(catalogue, id) * delta
    ensures SubtotalBefore(CartDetails(catalogue, next)) ==
              SubtotalBefore(CartDetails(catalogue, cart)) + ListPriceOf(catalogue, id) * delta
  {
    SubtotalsSplit(catalogue, cart, id);
    SubtotalsSplit(catalogue, next, id);
    MulShift(SalePriceOf(catalogue, id), Quantity(cart, id), Quantity(next, id), delta);
    MulShift(ListPriceOf(catalogue, id), Quantity(cart, id), Quantity(next, id), delta);
  }

  /** One more of an item raises both subtotals by its unit prices (nothing for an id outside the catalogue). */
  lemma IncrementRaisesSubtotals(catalogue: seq<Product>, cart: CartState, id: string, color: string)
    requires UniqueIds(catalogue)
    ensures SubtotalAfter(CartDetails(catalogue, IncrementCart(cart, id, color))) ==
              SubtotalAfter(CartDetails(catalogue, cart)) + SalePriceOf(catalogue, id)
    ensures SubtotalBefore(CartDetails(catalogue, IncrementCart(cart, id, color))) ==
              SubtotalBefore(CartDetails(catalogue, cart)) + ListPriceOf(catalogue, id)
  {
    var next := IncrementCart(cart, id, color);
    RemoveUpdated(cart, id, CartItem(Quantity(cart, id) + 1, color));
    SubtotalsShift(catalogue, cart, next, id, 1);
  }

  /** One fewer of an item in the cart lowers both subtotals by its unit prices. */
  lemma DecrementLowersSubtotals(catalogue: seq<Product>, cart: CartState, id: string)
    requires UniqueIds(catalogue) && AllPositive(cart) && id in cart
    ensures SubtotalAfter(CartDetails(catalogue, DecrementCart(cart, id))) ==
              SubtotalAfter(CartDetails(catalogue, cart)) - SalePriceOf(catalogue, id)
    ensures SubtotalBefore(CartDetails(catalogue, DecrementCart(cart, id))) ==
              SubtotalBefore(CartDetails(catalogue, cart)) - ListPriceOf(catalogue, id)
  {
    var next := DecrementCart(cart, id);
    var q := cart[id].quantity;
    if q - 1 <= 0 {
      assert next - {id} == cart - {id};
    } else {
      RemoveUpdated(cart, id, CartItem(q - 1, cart[id].color));
    }
    SubtotalsShift(catalogue, cart, next, id, -1);
  }

  lemma RemoveUpdated(cart: CartState, id: string, item: CartItem)
    ensures cart[id := item] - {id} == cart - {id}
  {
  }

  /** Recolouring never changes what the cart costs. */
  lemma RecolorKeepsPricing(catalogue: seq<Product>, cart: CartState, id: string, color: string, flatFee: nat)
    ensures ComputePricing(catalogue, RecolorCart(cart, id, color), flatFee).orderTotal ==
              ComputePricing(catalogue, cart, flatFee).orderTotal
  {
    RecolorSameTotals(catalogue, cart, id, color);
  }

  lemma {:induction false} RecolorSameTotals(catalogue: seq<Product>, cart: CartState, id: string, color: string)
    ensures SubtotalAfter(CartDetails(catalogue, RecolorCart(cart, id, color))) == SubtotalAfter(CartDetails(catalogue, cart))
    ensures SubtotalBefore(CartDetails(catalogue, RecolorCart(cart, id, color))) == SubtotalBefore(CartDetails(catalogue, cart))
  {
    if catalogue != [] {
      var next := RecolorCart(cart, id, color);
      RecolorSameTotals(catalogue[1..], cart, id, color);
      CartDetailsCons(catalogue, cart);
      CartDetailsCons(catalogue, next);
      SubtotalsConcat(HeadLine(catalogue[0], cart), CartDetails(catalogue[1..], cart));
      SubtotalsConcat(HeadLine(catalogue[0], next), CartDetails(catalogue[1..], next));
      var p := catalogue[0];
      if p.id in cart {
        assert HeadLine(p, cart)[1..] == [] && HeadLine(p, next)[1..] == [];
      }
    }
  }

  // ---- the page -----------------------------------------------------------

  /** The storefront (`Home`) component. */
  class Home {
    var cart: CartState
    var selectedColors: map<string, string>
    var cartHydrated: bool
    var colorsHydrated: bool
    /** Browser storage, and the keys written to it in order. */
    var storage: map<string, StoredString>
    var writes: seq<string>
    /** What the mount effects read before scheduling their frames. */
    const mountedCart: CartState
    const mountedSelections: Option<StoredString>

    /**
     * Quantities stay positive; once a part is hydrated, storage holds its
     * current value; nothing was written before its hydrated flag was set.
     */
    ghost predicate Valid()
      reads this
    {
      && AllPositive(cart) && AllPositive(mountedCart)
      && (cartHydrated ==> CartKey in storage && storage[CartKey] == Stringify(CartJson(cart)))
      && (colorsHydrated ==> SelectedColorsKey in storage &&
                             storage[SelectedColorsKey] == Stringify(SelectionsJson(selectedColors)))
      && (CartKey in writes ==> cartHydrated)
      && (SelectedColorsKey in writes ==> colorsHydrated)
    }

    /** Mounting: default state, and the reads of both storage keys. */
    constructor (initial: map<string, StoredString>)
      ensures Valid()
      ensures cart == map[] && selectedColors == map["grip" := "gray", "light" := "black"]
      ensures !cartHydrated && !colorsHydrated
      ensures storage == initial && writes == []
      ensures mountedCart == StoredCart(GetItem(initial, CartKey))
      ensures mountedSelections == GetItem(initial, SelectedColorsKey)
    {
      var defaults := CreateDefaultSelectedColors();
      var parsed := ParseStoredCart(GetItem(initial, CartKey));
      StoredCartPositive(GetItem(initial, CartKey));
      cart := map[];
      selectedColors := defaults;
      cartHydrated := false;
      colorsHydrated := false;
      storage := initial;
      writes := [];
      mountedCart := parsed;
      mountedSelections := GetItem(initial, SelectedColorsKey);
    }

    /** The effect on `[cart, cartHydrated]`, run when either changed. */
    method CartEffect()
      modifies this`storage, this`writes
      ensures storage == if cartHydrated then old(storage)[CartKey := Stringify(CartJson(cart))] else old(storage)
      ensures writes == old(writes) + if cartHydrated then [CartKey] else []
    {
      if !cartHydrated {
        return;
      }
      storage := storage[CartKey := Stringify(CartJson(cart))];
      writes := writes + [CartKey];
    }

    /** The effect on `[selectedColors, colorsHydrated]`, run when either changed. */
    method ColorsEffect()
      modifies this`storage, this`writes
      ensures storage == if colorsHydrated then old(storage)[SelectedColorsKey := Stringify(SelectionsJson(selectedColors))]
                         else old(storage)
      ensures writes == old(writes) + if colorsHydrated then [SelectedColorsKey] else []
    {
      if !colorsHydrated {
        return;
      }
      storage := storage[SelectedColorsKey := Stringify(SelectionsJson(selectedColors))];
      writes := writes + [SelectedColorsKey];
    }

    /** The cart hydration frame: the stored cart replaces the cart, and its colours override the selections. */
    method CartFrame()
      requires Valid() && !cartHydrated
      modifies this`cart, this`selectedColors, this`cartHydrated, this`storage, this`writes
      ensures Valid()
      ensures cart == mountedCart && cartHydrated
      ensures selectedColors == CartColorsMerged(old(selectedColors), mountedCart)
      ensures writes == old(writes) + [CartKey] + if colorsHydrated then [SelectedColorsKey] else []
      ensures var s := old(storage)[CartKey := Stringify(CartJson(cart))];
              storage == if colorsHydrated then s[SelectedColorsKey := Stringify(SelectionsJson(selectedColors))] else s
    {
      var merged := MergeCartColors(selectedColors, mountedCart);
      cart := mountedCart;
      selectedColors := merged;
      cartHydrated := true;
      CartEffect();
      ColorsEffect();
    }

    /** The colours hydration frame: string-valued stored selections override the current ones. */
    method ColorsFrame()
      requires Valid() && !colorsHydrated
      modifies this`selectedColors, this`colorsHydrated, this`storage, this`writes
      ensures Valid()
      ensures colorsHydrated
      ensures selectedColors == StoredSelectionsMerged(old(selectedColors), mountedSelections)
      ensures writes == old(writes) + [SelectedColorsKey]
      ensures storage == old(storage)[SelectedColorsKey := Stringify(SelectionsJson(selectedColors))]
    {
      if mountedSelections.Some? && mountedSelections.value != EmptyString {
        var parsed := Parse(mountedSelections.value);
        if parsed.Some? {
          var entries := ObjectEntries(parsed.value);
          if entries.Some? {
            selectedColors := MergeSelections(selectedColors, entries.value);
          }
        }
      }
      colorsHydrated := true;
      ColorsEffect();
    }

    /** `handleColorChange(productId, color)` */
    method ColorChange(id: string, color: string)
      requires Valid()
      modifies this`cart, this`selectedColors, this`storage, this`writes
      ensures Valid()
      ensures selectedColors == old(selectedColors)[id := color]
      ensures cart == RecolorCart(old(cart), id, color)
      ensures writes == old(writes) +
                        (if cartHydrated && RecolorChanges(old(cart), id, color) then [CartKey] else []) +
                        (if colorsHydrated && SelectionChanges(old(selectedColors), id, color) then [SelectedColorsKey] else [])
      ensures var s := if cartHydrated && RecolorChanges(old(cart), id, color)
                        then old(storage)[CartKey := Stringify(CartJson(cart))] else old(storage);
              storage == if colorsHydrated && SelectionChanges(old(selectedColors), id, color)
                         then s[SelectedColorsKey := Stringify(SelectionsJson(selectedColors))] else s
    {
      if RecolorChanges(cart, id, color) {
        RecolorEntry(id, color);
      }
      if SelectionChanges(selectedColors, id, color) {
        SelectColor(id, color);
      }
    }

    /** The cart half of `handleColorChange`, when it changes the cart, and the cart effect it triggers. */
    method RecolorEntry(id: string, color: string)
      requires Valid() && RecolorChanges(cart, id, color)
      modifies this`cart, this`storage, this`writes
      ensures Valid()
      ensures cart == RecolorCart(old(cart), id, color)
      ensures writes == old(writes) + if cartHydrated then [CartKey] else []
      ensures storage == if cartHydrated then old(storage)[CartKey := Stringify(CartJson(cart))] else old(storage)
    {
      cart := cart[id := cart[id].(color := color)];
      CartEffect();
    }

    /** The selection half of `handleColorChange`, when it changes the selections, and the effect it triggers. */
    method SelectColor(id: string, color: string)
      requires Valid() && SelectionChanges(selectedColors, id, color)
      modifies this`selectedColors, this`storage, this`writes
      ensures Valid()
      ensures selectedColors == old(selectedColors)[id := color]
      ensures writes == old(writes) + if colorsHydrated then [SelectedColorsKey] else []
      ensures storage == if colorsHydrated then old(storage)[SelectedColorsKey := Stringify(SelectionsJson(selectedColors))]
                         else old(storage)
    {
      selectedColors := selectedColors[id := color];
      ColorsEffect();
    }

    /** `incrementProduct(productId, color?)` */
    method Increment(id: string, color: Option<string>)
      requires Valid()
      modifies this`cart, this`storage, this`writes
      ensures Valid()
      ensures cart == IncrementCart(old(cart), id, AppliedColor(color, selectedColors, id))
      ensures writes == old(writes) + if cartHydrated then [CartKey] else []
      ensures storage == if cartHydrated then old(storage)[CartKey := Stringify(CartJson(cart))] else old(storage)
    {
      var applied := AppliedColor(color, selectedColors, id);
      cart := IncrementCart(cart, id, applied);
      CartEffect();
    }

    /** `decrementProduct(productId)`: for an id not in the cart, nothing changes and nothing is written. */
    method Decrement(id: string)
      requires Valid()
      modifies this`cart, this`storage, this`writes
      ensures Valid()
      ensures cart == DecrementCart(old(cart), id)
      ensures writes == old(writes) + if cartHydrated && id in old(cart) then [CartKey] else []
      ensures storage == if cartHydrated && id in old(cart) then old(storage)[CartKey := Stringify(CartJson(cart))]
                         else old(storage)
    {
      if id !in cart {
        return;
      }
      cart := DecrementCart(cart, id);
      CartEffect();
    }
  }
}
