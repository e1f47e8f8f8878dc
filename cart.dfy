/** `parseStoredCart`: the lenient reader of the persisted cart. */
module Cart {
  import opened Wrappers
  import opened Json
  import opened Types
  import opened Products

  /** The storage key both pages keep the cart under. */
  const CartKey := "uc-cart"

  /** `localStorage.getItem(key)` */
  function GetItem(storage: map<string, StoredString>, key: string): Option<StoredString> {
    if key in storage then Some(storage[key]) else None
  }

  /**
   * What one stored entry `[productId, value]` contributes: a bare positive
   * number (the legacy form) or an object with a positive numeric `quantity`
   * (the current form); anything else contributes nothing.
   */
  function EntryFor(id: string, value: JsonValue): (r: Option<CartItem>)
    ensures r.Some? ==> r.value.quantity > 0
  {
    match value
    case JNumber(n) =>
      if n <= 0 then None else Some(CartItem(n, GetDefaultColor(id)))
    case JObject(fields) =>
      if "quantity" in fields && fields["quantity"].JNumber? then
        var quantity := fields["quantity"].n;
        if quantity <= 0 then None
        else
          var color := if "color" in fields && fields["color"].JString? then fields["color"].s
                       else GetDefaultColor(id);
          Some(CartItem(quantity, color))
      else None
    case _ => None
  }

  /** The cart the `reduce` over all entries builds: each key keeps what its own entry contributes. */
  function Normalise(entries: map<string, JsonValue>): CartState {
    map k | k in entries && EntryFor(k, entries[k]).Some? :: EntryFor(k, entries[k]).value
  }

  /** `parseStoredCart(payload)` as a total function of what was stored (`None` when nothing was). */
  function StoredCart(payload: Option<StoredString>): CartState {
    if payload.None? || payload.value == EmptyString then map[]
    else
      match Parse(payload.value)
      case None => map[]
      case Some(parsed) =>
        match ObjectEntries(parsed)
        case None => map[]
        case Some(entries) => Normalise(entries)
  }

  /** The `reduce` callback run over the entries, assigning into the accumulator in place. */
  method NormaliseEntries(entries: map<string, JsonValue>) returns (acc: CartState)
    ensures acc == Normalise(entries)
  {
    acc := map[];
    var remaining := entries.Keys;
    while remaining != {}
      invariant remaining <= entries.Keys
      invariant acc == map k | k in entries && k !in remaining && EntryFor(k, entries[k]).Some? ::
                             EntryFor(k, entries[k]).value
      decreases remaining
    {
      var id :| id in remaining;
      var entry := EntryFor(id, entries[id]);
      if entry.Some? {
        acc := acc[id := entry.value];
      }
      remaining := remaining - {id};
    }
  }

  /** `parseStoredCart(payload)`: never fails; anything it cannot read is the empty cart. */
  method ParseStoredCart(payload: Option<StoredString>) returns (cart: CartState)
    ensures cart == StoredCart(payload)
  {
    if payload.None? || payload.value == EmptyString {
      return map[];
    }
    var parsed := Parse(payload.value);
    if parsed.None? {
      return map[];
    }
    var entries := ObjectEntries(parsed.value);
    if entries.None? {
      return map[];
    }
    cart := NormaliseEntries(entries.value);
  }

  // ---- properties -------------------------------------------------------

  /** Nothing stored, the empty string, unparsable text and JSON that is not an object or array all give the empty cart. */
  lemma StoredCartUnreadable(payload: Option<StoredString>)
    requires payload.None? || payload.value.Malformed? ||
             (payload.value.Serialized? && !payload.value.value.JObject? && !payload.value.value.JArray?)
    ensures StoredCart(payload) == map[]
  {
  }

  /** Whatever was stored, every entry of the parsed cart has a positive quantity. */
  lemma StoredCartPositive(payload: Option<StoredString>)
    ensures AllPositive(StoredCart(payload))
  {
  }

  /** Every key of a parsed cart was a key of the stored object. */
  lemma StoredCartKeys(entries: map<string, JsonValue>)
    ensures StoredCart(Some(Stringify(JObject(entries)))).Keys <= entries.Keys
  {
  }

  /** The legacy layout `{ "grip": 3 }` reads as three grips in grey. */
  lemma LegacyGripExample()
    ensures StoredCart(Some(Stringify(JObject(map["grip" := JNumber(3)])))) == map["grip" := CartItem(3, "gray")]
  {
    GetDefaultColorFacts("grip");
    var entries := map["grip" := JNumber(3)];
    assert EntryFor("grip", entries["grip"]) == Some(CartItem(3, "gray"));
    assert Normalise(entries) == map["grip" := CartItem(3, "gray")];
  }

  /** The legacy form: a bare number n > 0 becomes n items in the product's default colour; n <= 0 is dropped. */
  lemma LegacyEntry(entries: map<string, JsonValue>, id: string, n: int)
    requires id in entries && entries[id] == JNumber(n)
    ensures var cart := StoredCart(Some(Stringify(JObject(entries))));
            (n > 0 ==> id in cart && cart[id] == CartItem(n, GetDefaultColor(id))) &&
            (n <= 0 ==> id !in cart)
  {
  }

  /**
   * The current form: an object with numeric quantity q > 0 keeps q and its
   * colour when that is a string, else takes the default colour; q <= 0 is dropped.
   */
  lemma ObjectEntry(entries: map<string, JsonValue>, id: string, fields: map<string, JsonValue>, q: int)
    requires id in entries && entries[id] == JObject(fields)
    requires "quantity" in fields && fields["quantity"] == JNumber(q)
    ensures var cart := StoredCart(Some(Stringify(JObject(entries))));
            (q > 0 ==> id in cart && cart[id].quantity == q &&
                       cart[id].color == (if "color" in fields && fields["color"].JString?
                                          then fields["color"].s else GetDefaultColor(id))) &&
            (q <= 0 ==> id !in cart)
  {
  }

  /** A value that is neither a number nor an object whose `quantity` is a number is dropped. */
  lemma MalformedEntryDropped(entries: map<string, JsonValue>, id: string)
    requires id in entries && !entries[id].JNumber?
    requires !(entries[id].JObject? && "quantity" in entries[id].fields && entries[id].fields["quantity"].JNumber?)
    ensures id !in StoredCart(Some(Stringify(JObject(entries))))
  {
  }

  /** `JSON.stringify(cart)`: each entry as `{ quantity, color }`. */
  function CartJson(cart: CartState): JsonValue {
    JObject(map k | k in cart :: ItemJson(cart[k]))
  }

  function ItemJson(item: CartItem): JsonValue {
    JObject(map["quantity" := JNumber(item.quantity), "color" := JString(item.color)])
  }

  /** Reading back what the storefront wrote gives the same cart, for every cart whose quantities are positive. */
  lemma StoredCartRoundTrip(cart: CartState)
    requires AllPositive(cart)
    ensures StoredCart(Some(Stringify(CartJson(cart)))) == cart
  {
    var entries := map k | k in cart :: ItemJson(cart[k]);
    forall k | k in cart ensures EntryFor(k, entries[k]) == Some(cart[k]) {
      var fields := entries[k].fields;
      assert fields["quantity"] == JNumber(cart[k].quantity);
      assert fields["color"] == JString(cart[k].color);
    }
    assert Normalise(entries) == cart;
  }
}
