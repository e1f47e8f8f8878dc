/** The static catalogue and the colour helpers over it. */
module Products {
  import opened Wrappers
  import opened Types
  import JsString

  const FallbackColor := "#f5f5f5"

  const Grip := Product("grip", "Gym Grips", "$12.99", Some("$6.99"), None,
                        "/grip-01.jpg", "/grip-02.jpg", None, Some(["gray", "black"]))

  const Light := Product("light", "Undercontrol Gym Light", "$20.99", Some("$14.99"), None,
                         "/light-01.jpg", "/light-02.png", Some("new"), Some(["black"]))

  const FeaturedProducts: seq<Product> := [Grip, Light]

  /** No two catalogue items share an id. */
  predicate UniqueIds(catalogue: seq<Product>) {
    forall i, j :: 0 <= i < j < |catalogue| ==> catalogue[i].id != catalogue[j].id
  }

  /** `product.colors?.[0] ?? FALLBACK_COLOR` */
  function FirstColor(p: Product): (c: string)
    ensures p.colors.Some? && |p.colors.value| > 0 ==> c == p.colors.value[0]
    ensures p.colors.None? || p.colors.value == [] ==> c == FallbackColor
  {
    if p.colors.Some? && |p.colors.value| > 0 then p.colors.value[0] else FallbackColor
  }

  /** `catalogue.find((item) => item.id === id)`: the first item with that id. */
  function Find(catalogue: seq<Product>, id: string): (r: Option<Product>)
    ensures r.None? <==> forall i :: 0 <= i < |catalogue| ==> catalogue[i].id != id
    ensures r.Some? ==> exists i :: 0 <= i < |catalogue| && catalogue[i] == r.value && r.value.id == id &&
                               forall j :: 0 <= j < i ==> catalogue[j].id != id
  {
    if catalogue == [] then None
    else if catalogue[0].id == id then Some(catalogue[0])
    else
      var r := Find(catalogue[1..], id);
      assert r.Some? ==> exists i :: 1 <= i < |catalogue| && catalogue[i] == r.value && r.value.id == id &&
                               forall j :: 0 <= j < i ==> catalogue[j].id != id by {
        if r.Some? {
          var i :| 0 <= i < |catalogue[1..]| && catalogue[1..][i] == r.value && r.value.id == id &&
                   forall j :: 0 <= j < i ==> catalogue[1..][j].id != id;
          assert catalogue[i + 1] == r.value;
          assert forall j :: 0 <= j < i + 1 ==> catalogue[j].id != id by {
            forall j | 0 <= j < i + 1 ensures catalogue[j].id != id {
              if j > 0 { assert catalogue[j] == catalogue[1..][j - 1]; }
            }
          }
        }
      }
      r
  }

  function DefaultColorIn(catalogue: seq<Product>, id: string): string {
    match Find(catalogue, id)
    case Some(p) => FirstColor(p)
    case None => FallbackColor
  }

  /** `getDefaultColor(productId)` */
  function GetDefaultColor(id: string): string {
    DefaultColorIn(FeaturedProducts, id)
  }

  /** With unique ids, the item the lookup finds for an id is the one at that position. */
  lemma DefaultColorAt(catalogue: seq<Product>, i: nat)
    requires UniqueIds(catalogue) && i < |catalogue|
    ensures DefaultColorIn(catalogue, catalogue[i].id) == FirstColor(catalogue[i])
  {
    var r := Find(catalogue, catalogue[i].id);
    var k :| 0 <= k < |catalogue| && catalogue[k] == r.value && r.value.id == catalogue[i].id &&
             forall j :: 0 <= j < k ==> catalogue[j].id != catalogue[i].id;
    assert k == i;
  }

  /** An id outside the catalogue gets the fallback colour. */
  lemma DefaultColorUnknown(catalogue: seq<Product>, id: string)
    requires forall i :: 0 <= i < |catalogue| ==> catalogue[i].id != id
    ensures DefaultColorIn(catalogue, id) == FallbackColor
  {
  }

  /** The catalogue as published: unique ids, a non-empty colour list on every item. */
  lemma FeaturedProductsWellFormed()
    ensures UniqueIds(FeaturedProducts)
    ensures forall i :: 0 <= i < |FeaturedProducts| ==>
              FeaturedProducts[i].colors.Some? && |FeaturedProducts[i].colors.value| > 0
  {
  }

  /** "grip" defaults to "gray", "light" to "black", anything else to the fallback. */
  lemma GetDefaultColorFacts(id: string)
    ensures GetDefaultColor("grip") == "gray"
    ensures GetDefaultColor("light") == "black"
    ensures id != "grip" && id != "light" ==> GetDefaultColor(id) == FallbackColor
  {
    FeaturedProductsWellFormed();
    DefaultColorAt(FeaturedProducts, 0);
    DefaultColorAt(FeaturedProducts, 1);
    if id != "grip" && id != "light" {
      DefaultColorUnknown(FeaturedProducts, id);
    }
  }

  /** `formatColorLabel(value)` */
  function FormatColorLabel(value: Option<string>): (r: string)
    ensures value.None? || value.value == [] ==> r == []
    ensures value.Some? && value.value != [] && value.value[0] == '#' ==> r == JsString.ToUpper(value.value)
    ensures value.Some? && value.value != [] && value.value[0] != '#' ==>
              |r| == |value.value| && r[0] == JsString.UpperChar(value.value[0]) && r[1..] == value.value[1..]
  {
    if value.None? || value.value == [] then ""
    else if value.value[0] == '#' then JsString.ToUpper(value.value)
    else [JsString.UpperChar(value.value[0])] + value.value[1..]
  }

  /** Formatting a label that is already formatted changes nothing. */
  lemma FormatColorLabelIdempotent(value: Option<string>)
    ensures FormatColorLabel(Some(FormatColorLabel(value))) == FormatColorLabel(value)
  {
    var r := FormatColorLabel(value);
    if value.Some? && value.value != [] {
      if value.value[0] == '#' {
        JsString.ToUpperIdempotent(value.value);
      } else {
        assert [JsString.UpperChar(r[0])] + r[1..] == r;
      }
    }
  }
}
