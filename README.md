# UNDERCONTROL storefront: cart, pricing, checkout and order e-mail

A Dafny model of the storefront's core: a two-item catalogue of gym gear, a
cart kept in the browser's key-value storage, the pricing both pages show,
the checkout form that turns the cart into an order, and the server route
that e-mails the order to the shop and the customer.

Modules (one `.dfy` file each):

- `Wrappers`: `Option`.
- `JsString`: the JavaScript string operations the core uses:
  - `trim`;
  - ASCII `toUpperCase`;
  - `Number.prototype.toString(radix)` for natural numbers, with its round trip.
- `Json`: JSON values and what `JSON.parse` / `JSON.stringify` / `Object.entries` do with them.
- `Types`: the product, cart and e-mail payload records.
- `Products`: the catalogue, `getDefaultColor` and `formatColorLabel`.
- `Cart`: `parseStoredCart`, the lenient reader of the stored cart.
- `Pricing`: `parsePrice`, the `cartDetails` resolution and the pricing block both pages compute:
  - the subtotals;
  - the clamped discount;
  - the shipping fee and the total.
- `Storefront`: the storefront page as a class `Home`:
  - its state;
  - the two deferred hydration frames;
  - the colour, increment and decrement handlers;
  - the two persistence effects.
- `OrderEmail`: the `POST /api/order-email` route as a function from its inputs to its HTTP response.
- `Checkout`: the checkout page as a class `CheckoutPage`:
  - the order built on submit;
  - the order id;
  - the price labels;
  - passing the order to the route;
  - closing the modal.

Representation choices:

- **Money** is integer cents. The storefront's flat fee is 300 and the checkout's is 200. Free shipping starts strictly above 3000.
- **Price strings** are read as JavaScript reads them:
  - every character that is not a digit or `.` is dropped;
  - the empty remainder, a lone `.` and a remainder with two dots (NaN in JavaScript) all read as 0.
- **Stored strings** in browser storage are `Serialized(v)` or `Malformed(chars)`. The JSON text syntax is not modelled:
  - `Serialized(v)` is any text that parses to the value `v`;
  - `Malformed(chars)` is any text on which `JSON.parse` throws, the empty string among them.
  `Stringify(v)` is `Serialized(v)`, so `Parse(Stringify(v)) == Some(v)`.
- **Component state** is a field of the page class. Each React state update is a `modifies` of that field.
  - Browser storage is a `storage` field. The storefront also keeps a `writes` log of the keys passed to `setItem`, so a contract can say when an effect wrote.
  - A persistence effect runs when its dependencies change. The model runs it at the end of each handler that changed the watched state.
  - Each mount effect reads storage before it schedules its animation frame. That read is captured in the `mountedCart` / `mountedSelections` constants, and the frame itself is a method.
- **Inputs the model does not compute:**
  - the clock (`Date.now()`) is the `now` parameter;
  - the submitted form is a map from field names to a string or a file;
  - the route's environment variables are an `Env` record;
  - the support address is a parameter, because `lib/contact` is not part of this model;
  - the e-mail provider's reply is a `ProviderOutcome`;
  - `fetch`'s reply is a `FetchOutcome`.

Hydration on the storefront overrides what is already in the page's state:

- **The cart frame replaces the cart.** It sets the whole cart to the stored one, dropping any entry added before the frame ran. It then overrides the selected colour of every cart entry that has a non-empty colour.
- **The colours frame overrides selections.** It overwrites every selection that has a stored string value, including one the user changed before the frame ran.

## Model

| member | source | states |
|---|---|---|
| JsString.ToUpper | lib/products.ts:35 | same length; each character is upper-cased and non-letters are kept |
| JsString.ToUpperIdempotent | lib/products.ts:35 | upper-casing twice is upper-casing once |
| JsString.ToUpperConcat | lib/products.ts:35 | upper-casing distributes over concatenation |
| JsString.TrimStart | app/checkout/page.tsx:121 | result is a suffix of the input; it starts with no white space; everything dropped is white space |
| JsString.TrimEnd | app/checkout/page.tsx:121 | result is a prefix of the input; it ends with no white space; everything dropped is white space |
| JsString.Trim | app/checkout/page.tsx:121 | result is a slice of the input with only white space cut at either end; a non-empty result neither starts nor ends with white space |
| JsString.TrimEmpty | app/checkout/page.tsx:121 | trimming gives the empty string exactly when the input is all white space |
| JsString.TrimIdempotent | app/checkout/page.tsx:121 | trimming a trimmed string changes nothing |
| JsString.NatToString | app/checkout/page.tsx:132 | `toString(radix)` of a natural number is never empty, is one character exactly when the number is below the radix, has no leading zero, and every character is a decimal digit or a lower-case letter whose digit value is below the radix |
| JsString.NatToStringRoundTrip | app/checkout/page.tsx:132 | reading the digits back in the same radix gives the number |
| JsString.RadixValueUpper | app/checkout/page.tsx:132 | upper-casing the digits does not change the number they denote |
| Json.Parse | lib/cart.ts:7 | parsing succeeds exactly on serialized text and returns its value |
| Json.Stringify | app/page.tsx:86 | what is written parses back to the same value and is never the empty string |
| Json.ObjectEntries | lib/cart.ts:8-11 | exactly objects and arrays get past the object guard; an object's entries are its fields |
| Products.FirstColor | lib/products.ts:29 | the first listed colour, or the fallback colour when there is no colour list or it is empty |
| Products.Find | lib/products.ts:28 | none exactly when no item has the id; otherwise the first item with that id |
| Products.DefaultColorAt | lib/products.ts:27-30 | in a catalogue with distinct ids, an item's default colour is its first colour |
| Products.DefaultColorUnknown | lib/products.ts:27-30 | an id missing from the catalogue gets the fallback colour |
| Products.FeaturedProductsWellFormed | lib/products.ts:5-25 | the catalogue ids are distinct and every item lists at least one colour |
| Products.GetDefaultColorFacts | lib/products.ts:27-30 | "grip" defaults to "gray", "light" to "black", any other id to "#f5f5f5" |
| Products.FormatColorLabel | lib/products.ts:32-38 | a missing or empty value gives ""; a value starting with "#" is wholly upper-cased; otherwise only the first character is upper-cased and the rest is kept |
| Products.FormatColorLabelIdempotent | lib/products.ts:32-38 | formatting a formatted label changes nothing |
| Cart.EntryFor | lib/cart.ts:12-34 | an entry the reducer keeps always has a positive quantity |
| Cart.NormaliseEntries | lib/cart.ts:11-38 | the reduce loop over the entries builds exactly the normalised cart |
| Cart.ParseStoredCart | lib/cart.ts:4-42 | the method returns exactly the cart the stored payload denotes |
| Cart.StoredCartUnreadable | lib/cart.ts:5-10 | a missing, empty or unparseable payload, or one that is not an object or array, gives the empty cart |
| Cart.StoredCartPositive | lib/cart.ts:14 | every entry of a parsed cart has a positive quantity |
| Cart.StoredCartKeys | lib/cart.ts:11-38 | a parsed cart has no ids that the stored object does not have |
| Cart.LegacyGripExample | lib/cart.ts:13-19 | the legacy payload {"grip":3} becomes 3 grips in gray |
| Cart.LegacyEntry | lib/cart.ts:13-19 | a bare number n is kept with the default colour if n > 0 and dropped otherwise |
| Cart.ObjectEntry | lib/cart.ts:21-33 | an object with a numeric quantity q is kept if q > 0, with its string colour or else the default colour; it is dropped otherwise |
| Cart.MalformedEntryDropped | lib/cart.ts:21-35 | a value that is neither a number nor an object with a numeric quantity is dropped |
| Cart.StoredCartRoundTrip | lib/cart.ts:21-33 | a cart with positive quantities, once written and read back, is the same cart |
| Pricing.KeepPriceChars | app/page.tsx:177 | only digits and dots survive, and the result is no longer than the input |
| Pricing.KeepPriceCharsConcat | app/page.tsx:177 | the character filter distributes over concatenation |
| Pricing.KeepPriceCharsFixed | app/page.tsx:177 | a string of digits and dots passes the filter unchanged |
| Pricing.KeepPriceCharsNone | app/page.tsx:177 | a string with no digit and no dot filters to the empty string |
| Pricing.ParseDollarForm | app/page.tsx:176-177 | "$" + whole + "." + two digits reads as whole*100 + the two digits, in cents |
| Pricing.ParsePriceUnreadable | app/checkout/page.tsx:22-23 | an empty remainder, a lone dot or a remainder with two dots reads as 0 |
| Pricing.Dollars | app/checkout/page.tsx:136 | a dollar label starts with "$" and is at least five characters long |
| Pricing.DollarsShape | app/checkout/page.tsx:134-137 | a dollar label is "$", a "-" for a negative amount, one or more decimal digits, "." and exactly two decimal digits |
| Pricing.TwoDigits | app/checkout/page.tsx:146 | the two fraction digits written by `toFixed(2)` read back as the cents |
| Pricing.DollarsRoundTrip | app/checkout/page.tsx:134-137 | reading a written dollar label gives back the amount in cents |
| Pricing.CataloguePrices | lib/products.ts:5-25 | the grip costs 1299 and sells for 699; the light costs 2099 and sells for 1499 |
| Pricing.CartDetails | app/page.tsx:154-174 | each line is a catalogue item in the cart, with that entry's quantity and colour, and there are no more lines than catalogue items |
| Pricing.CartDetailsOrdered | app/page.tsx:154-174 | with distinct catalogue ids, the lines follow the catalogue order strictly, so no item has two lines |
| Pricing.CartDetailsComplete | app/page.tsx:154-174 | every catalogue item in the cart has a line |
| Pricing.CartDetailsEmpty | app/checkout/page.tsx:61-81 | there are no lines exactly when no catalogue id is in the cart |
| Pricing.CartDetailsAgree | app/page.tsx:154-174 | carts that agree on the catalogue ids give the same lines |
| Pricing.PricingDependsOnCatalogueIds | app/page.tsx:154-202 | entries for ids outside the catalogue do not affect the pricing |
| Pricing.ShippingFee | app/page.tsx:196-201 | the fee is 0 or the flat fee; it is 0 exactly for an empty subtotal, a subtotal above the threshold, or a zero flat fee |
| Pricing.FreeShippingBoundary | app/page.tsx:196-201 | exactly 30.00 still pays the fee; 30.01 ships free; an empty subtotal ships free |
| Pricing.ComputePricing | app/page.tsx:179-202 | the discount is the subtotal difference clamped at 0; the total is the discounted subtotal plus the fee for that subtotal |
| Pricing.SubtotalsNonNegative | app/page.tsx:179-189 | with positive quantities both subtotals are non-negative |
| Pricing.PricingNonNegative | app/checkout/page.tsx:83-105 | with positive quantities the subtotals are non-negative and the total is at least the discounted subtotal |
| Pricing.SavingsIsDifference | app/page.tsx:191-194 | the sum of per-line savings is the difference of the two subtotals |
| Pricing.LineSavingsNonNegative | app/page.tsx:191-194 | a line whose sale price does not exceed its list price saves a non-negative amount |
| Pricing.SavingsNonNegative | app/page.tsx:191-194 | when no sale price exceeds its list price, the total saving is non-negative |
| Pricing.DiscountIsSavings | app/page.tsx:191-194 | in such a catalogue the clamp never applies: the discount is exactly the summed savings |
| Pricing.SubtotalsConcat | app/page.tsx:179-189 | subtotals add up over concatenated lines |
| Pricing.SubtotalsSplit | app/page.tsx:179-189 | with distinct ids, each subtotal is the rest of the cart's plus one id's price times its quantity |
| Pricing.TwoGripsExample | app/page.tsx:179-202 | two grips: 25.98 before, 13.98 after, 12.00 off; with each page's flat fee the total is 16.98 on the storefront and 15.98 at checkout |
| Storefront.FirstColors | app/page.tsx:19-23 | the reduce loop maps every catalogue id, and only those, to that item's first colour |
| Storefront.CreateDefaultSelectedColors | app/page.tsx:19-23 | the initial selections map each catalogue id to `getDefaultColor` of it: grip to gray, light to black |
| Storefront.AppliedColor | app/page.tsx:116-117 | an explicit colour wins, then the selected colour, then the default colour |
| Storefront.IncrementCart | app/page.tsx:118-128 | the entry's quantity goes up by one (from 0 when it was absent) with the applied colour; every other entry is unchanged; quantities stay positive |
| Storefront.DecrementCart | app/page.tsx:132-145 | an absent id changes nothing; a quantity of 1 removes the entry; otherwise the quantity drops by one with the same colour; every other entry is unchanged |
| Storefront.RecolorCart | app/page.tsx:103-112 | same ids; only an existing entry's colour changes; a no-op recolour returns the cart unchanged |
| Storefront.ColorChangeTwice | app/page.tsx:98-113 | a second identical colour change changes neither the selections nor the cart |
| Storefront.CartColorsMerged | app/page.tsx:38-46 | every cart entry with a non-empty colour overrides the selection; other selections are kept; no other keys appear |
| Storefront.PinnedStep | app/page.tsx:40-44 | one step of the forEach assigns that entry's colour when it is non-empty and does nothing otherwise |
| Storefront.MergeCartColors | app/page.tsx:39-45 | the forEach loop computes exactly the merged selections |
| Storefront.StoredSelectionsMerged | app/page.tsx:54-77 | hydrating selections never loses a key; absent or unparsable storage and a stored non-object leave the selections as they were; for a stored object every string entry sets its key, every other key keeps its previous colour, and no other key appears |
| Storefront.MergeSelections | app/page.tsx:65-71 | the forEach loop overrides the previous selections with exactly the stored string values |
| Storefront.SelectionsRoundTrip | app/page.tsx:92-95 | selections written by the effect and read back override the previous selections with exactly themselves |
| Storefront.MalformedSelectionsIgnored | app/page.tsx:57-77 | a missing, empty, unparseable or non-object stored value leaves the selections as they were |
| Storefront.NonStringSelectionIgnored | app/page.tsx:66-70 | a stored value that is not a string does not touch that id's selection |
| Storefront.SubtotalsShift | app/page.tsx:179-189 | changing one id's quantity by delta moves each subtotal by that id's price times delta |
| Storefront.IncrementRaisesSubtotals | app/page.tsx:115-129 | an increment raises each subtotal by exactly the item's price (0 for an unknown id) |
| Storefront.DecrementLowersSubtotals | app/page.tsx:131-146 | a decrement of an entry lowers each subtotal by exactly the item's price |
| Storefront.RecolorKeepsPricing | app/page.tsx:103-112 | a colour change does not change the order total |
| Storefront.RecolorSameTotals | app/page.tsx:103-112 | a colour change does not change either subtotal |
| Storefront.Home.constructor | app/page.tsx:26-31 | empty unhydrated cart, default selections, and the mount-time storage reads |
| Storefront.Home.CartEffect | app/page.tsx:83-87 | once hydrated, the stringified cart is written under "uc-cart"; before that storage is untouched |
| Storefront.Home.ColorsEffect | app/page.tsx:89-96 | once hydrated, the stringified selections are written under "uc-selected-colors"; before that storage is untouched |
| Storefront.Home.CartFrame | app/page.tsx:33-50 | the cart becomes the stored cart; cart colours are merged into the selections; the cart is marked hydrated; storage gets the cart, and the selections only if they are already hydrated, and nothing else changes |
| Storefront.Home.ColorsFrame | app/page.tsx:52-81 | the stored selections are merged in and marked hydrated; storage gets the selections only, and the cart entry is untouched |
| Storefront.Home.ColorChange | app/page.tsx:98-113 | the selection becomes the colour and the cart entry is recoloured; storage is rewritten only for each part that changed and is hydrated, so a repeated identical change leaves storage as it was |
| Storefront.Home.RecolorEntry | app/page.tsx:103-112 | the cart is recoloured; storage gets the new cart when hydrated and is otherwise unchanged |
| Storefront.Home.SelectColor | app/page.tsx:99-102 | the selection is set; storage gets the new selections when hydrated and is otherwise unchanged |
| Storefront.Home.Increment | app/page.tsx:115-129 | the cart is incremented with the applied colour; storage gets the new cart when hydrated and is otherwise unchanged |
| Storefront.Home.Decrement | app/page.tsx:131-146 | the cart is decremented; storage gets the new cart only when the entry existed and the cart is hydrated, and is otherwise unchanged |
| OrderEmail.AdminAddress | app/api/order-email/route.ts:39 | the admin address is `ADMIN_EMAIL` when set and the support address only when it is unset |
| OrderEmail.FromAddress | app/api/order-email/route.ts:40-42 | the sender is `FROM_EMAIL` when set and the default sender otherwise |
| OrderEmail.Recipients | app/api/order-email/route.ts:44-48 | the admin comes first; the customer is included exactly when their address is non-empty; no address appears twice |
| OrderEmail.Subject | app/api/order-email/route.ts:54 | the subject is "Order ", the order id, " · ", then the total |
| OrderEmail.EmailFor | app/api/order-email/route.ts:50-56 | the message has the configured sender, exactly the recipient list of the admin and the customer, the subject and the payload unchanged |
| OrderEmail.Attempt | app/api/order-email/route.ts:13-56 | an e-mail is sent exactly when the key is configured and the body parsed |
| OrderEmail.Post | app/api/order-email/route.ts:13-80 | success exactly when configured, parsed and delivered; status 200 exactly on success; no key gives 500, a bad body 400, a provider error 502 and a throw 500, each with its message |
| OrderEmail.ConfigurationFirst | app/api/order-email/route.ts:14-25 | without a key even an unreadable body gets the 500 and nothing is sent |
| OrderEmail.EmptyVariables | app/api/order-email/route.ts:7-11 | an empty API key counts as unset; an empty admin address is used as it is |
| Checkout.GetField | app/checkout/page.tsx:119-122 | a text field gives its trimmed text; a missing or file field gives "" |
| Checkout.OrDefault | app/checkout/page.tsx:124-131 | an empty value is replaced by the default and a non-empty one is kept |
| Checkout.NonEmpty | app/checkout/page.tsx:162 | `email \|\| undefined` is present exactly when the value is non-empty |
| Checkout.BlankFieldDefaults | app/checkout/page.tsx:124-131 | a missing or all-white-space field takes the default |
| Checkout.OrderId | app/checkout/page.tsx:132 | the id starts with "UC-" and every later character is a decimal digit or an upper-case letter |
| Checkout.OrderIdRoundTrip | app/checkout/page.tsx:132 | the part after "UC-" read in base 36 is the timestamp |
| Checkout.OrderIdInjective | app/checkout/page.tsx:132 | two timestamps give the same id exactly when they are equal |
| Checkout.ShippingLabel | app/checkout/page.tsx:134-135 | the label is "Free" exactly when the fee is 0 |
| Checkout.FreeLabel | app/checkout/page.tsx:134-135 | the label "Free" reads back as 0 |
| Checkout.OrderLines | app/checkout/page.tsx:139-148 | one e-mail line per cart line, in the same order, with its name, its formatted colour label and its quantity |
| Checkout.LinePriceLabels | app/checkout/page.tsx:140-146 | each line's price label reads back as that line's price after discount |
| Checkout.LinesAddUp | app/checkout/page.tsx:139-148 | the line price labels read back add up to the discounted subtotal |
| Checkout.BuildOrder | app/checkout/page.tsx:118-175 | the payload and the confirmation describe one order with the timestamp's id and the cart's lines; name, street, city, phone and payment method are the trimmed form fields or, when empty, Friend, "—", Lebanon, Not provided and Cash On Delivery; the e-mail is the field when non-empty; the notes are the trimmed field; the total, subtotal and shipping labels are those of the given pricing |
| Checkout.AssembleOrder | app/checkout/page.tsx:111-176 | no order exactly when the cart has no catalogue item; otherwise the timestamp's id, the cart's lines, and each form field or its default, as for `BuildOrder` |
| Checkout.OrderNeedsCatalogueItem | app/checkout/page.tsx:113-116 | with the shop's catalogue, submit is refused exactly when neither grip nor light is in the cart |
| Checkout.OrderLabelsRoundTrip | app/checkout/page.tsx:134-148 | the total, subtotal and shipping labels read back as the computed amounts, and the line labels add up to the subtotal |
| Checkout.EmptyFormDefaults | app/checkout/page.tsx:124-131 | an empty form gives Friend, "—", Lebanon, Not provided, no e-mail, no notes and Cash On Delivery |
| Checkout.CustomerGetsCopy | app/api/order-email/route.ts:44-48 | a non-empty form e-mail ends up among the recipients, after the admin |
| Checkout.RouteAccepted | app/checkout/page.tsx:196-201 | the page accepts the route's answer exactly when the route is configured and the provider delivered |
| Checkout.CheckoutPage.constructor | app/checkout/page.tsx:38-44 | empty cart, no order, not sending, no error, and the mount-time read of the stored cart |
| Checkout.CheckoutPage.CartFrame | app/checkout/page.tsx:46-53 | the cart becomes the stored cart |
| Checkout.CheckoutPage.Submit | app/checkout/page.tsx:111-176 | with no catalogue item in the cart, only the error is set; otherwise the error is cleared and the assembled payload and confirmation are pending; the error is cleared exactly when the submit button was enabled |
| Checkout.CheckoutPage.Place | app/checkout/page.tsx:150-175 | the error is cleared and the order becomes the pending payload and shown confirmation |
| Checkout.CheckoutPage.BeginPassOrder | app/checkout/page.tsx:178-181 | without a pending payload nothing happens; with one the page is sending and the error is cleared; when the "Pass Order" button was enabled the payload is sent and the button is then disabled |
| Checkout.CheckoutPage.FinishPassOrder | app/checkout/page.tsx:196-217 | on acceptance the order, the modal and the cart are cleared, "uc-cart" is removed and the page navigates home; otherwise the state is kept and the error says which failure it was; sending ends either way; after acceptance both buttons are disabled, and after a failure "Pass Order" is enabled again exactly when an order was pending |
| Checkout.CheckoutPage.PassOrder | app/checkout/page.tsx:178-218 | the whole handler: nothing without a pending payload; on acceptance the order and the cart are cleared and the page navigates home; otherwise the order, the confirmation, the cart and storage are kept and the error names the failure |
| Checkout.CheckoutPage.CloseModal | app/checkout/page.tsx:220-223 | the confirmation and the pending payload are cleared, so "Pass Order" is disabled |

Also modelled, without a contract of their own:

- the record types are in `types.dfy`, from `types/cart.ts:1-7`, `types/product.ts:1-12` and `emails/OrderConfirmation.tsx:1-21`; the checkout's own `ConfirmationData` type (`app/checkout/page.tsx:25-34`) is `Checkout.ConfirmationData`, with `notes` always present because `handleSubmit` always sets it;
- `JsString.UpperChar` is `toUpperCase` on one character, as in `charAt(0).toUpperCase()` (`lib/products.ts:37`); `ToUpper` applies it to every character;
- `Pricing.HeadLine` is the `cartDetails` map callback for one catalogue item (`app/page.tsx:156-164`); `CartDetails` and its lemmas state what the map and filter give;
- `Pricing.Quantity` is `prevItem?.quantity ?? 0` (`app/page.tsx:119-120`); `SubtotalsSplit` and the increment and decrement lemmas are stated with it;
- `OrderEmail.Failure` is the `NextResponse.json({ success: false, error }, { status })` reply (`app/api/order-email/route.ts:17-24`, `app/api/order-email/route.ts:33-36`, `app/api/order-email/route.ts:60-66`, `app/api/order-email/route.ts:72-78`); `Post` states each status and message;
- `Products.GetDefaultColor` (`lib/products.ts:27-30`): its properties are `DefaultColorAt`, `DefaultColorUnknown` and `GetDefaultColorFacts`;
- `Products.DefaultColorIn` is the same lookup over a given catalogue (`lib/products.ts:28-29`); `GetDefaultColor` is it over the shop's catalogue;
- `Cart.GetItem` is `localStorage.getItem` (`app/page.tsx:35`, `app/page.tsx:55`, `app/checkout/page.tsx:48`);
- `Cart.Normalise` and `Cart.StoredCart` are the reduce and the whole of `parseStoredCart` (`lib/cart.ts:4-42`); every `Cart` lemma above is about them;
- `Cart.CartJson`, `Cart.ItemJson` and `Storefront.SelectionsJson` are the values `JSON.stringify` writes at `app/page.tsx:86` and `app/page.tsx:92-95`;
- `Pricing.ParsePrice`, `Pricing.SubtotalBefore`, `Pricing.SubtotalAfter`: their properties are the lemmas above;
- `Pricing.IndexOf` and `Pricing.FractionCents` are the helpers by which `ParsePrice` reads the kept characters the way `Number(...)` does (`app/page.tsx:176-177`): the whole part before the first ".", and the first two digits after it as cents;
- `Pricing.ListPrice`, `Pricing.SalePrice` and `Pricing.LinePrice` are the unit prices and the line price the reductions add up (`app/page.tsx:180`, `app/page.tsx:187`); `Pricing.LineSavings` and `Pricing.Savings` are the discount of `app/page.tsx:191-194` counted line by line, related to the subtotals by the savings lemmas above;
- `Json.ArrayEntries` is what `Object.entries` gives for a parsed array (`app/page.tsx:66`): its elements under the keys "0", "1", ...;
- `Storefront.Pinned` is the colours the cart frame's `forEach` copies into the selections (`app/page.tsx:40-44`), and `Storefront.StringValues` the string entries the colours frame's `forEach` copies (`app/page.tsx:66-70`); `MergeCartColors`, `MergeSelections` and `StoredSelectionsMerged` state what they give;
- `Storefront.SelectionChanges` and `Storefront.RecolorChanges` are the two "nothing changes" tests of `handleColorChange` (`app/page.tsx:100`, `app/page.tsx:105`); `ColorChange` states the storage writes they decide;
- `OrderEmail.Configured` is `getResendClient` returning a client (`app/api/order-email/route.ts:7-11`, `app/api/order-email/route.ts:16`); `Attempt`, `Post` and `EmptyVariables` state what depends on it;
- `Checkout.Accepted` is the page's test of the answer (`app/checkout/page.tsx:196`); `RouteAccepted` relates it to the route;
- `Pricing.StorefrontFlatFee` and `Pricing.CheckoutFlatFee` are the fees at `app/page.tsx:201` and `app/checkout/page.tsx:104`;
- `Checkout.LineFor` is the map callback at `app/checkout/page.tsx:139-148`; `OrderLines` and `LinePriceLabels` state what it gives;
- `Checkout.CheckoutPage.SubmitEnabled` and `Checkout.CheckoutPage.PassOrderEnabled` model the `disabled` conditions at `app/checkout/page.tsx:374` and `app/checkout/page.tsx:573`; `Submit`, `BeginPassOrder`, `FinishPassOrder` and `CloseModal` state how they move.

## Left out

- Rendering: JSX markup, images, the header's `cartCount`, the checkout's `totalItems`, and the e-mail template's HTML.
- Pricing.ParsePrice: prices are read with at most two fraction digits, because the model works in cents. Further digits are dropped, not carried as a binary float.
  - A fractional `toFixed` rounding cannot arise here and is not modelled.
  - A remainder that `Number` reads as a non-finite or huge value is not modelled.
- Types.CartItem: quantities are integers. A fractional or non-finite JavaScript number in a stored cart is not modelled.
- JsString.ToUpper: upper-cases the ASCII letters only. Unicode case mapping is not modelled. The catalogue colours are ASCII, but a colour read from storage is taken verbatim (`lib/cart.ts:28-33`, `app/page.tsx:67-68`), so `formatColorLabel` may see other characters. For those the model keeps the character where JavaScript may map it.
- JsString.Trim: white space is the ECMAScript set of white-space and line-terminator characters.
- JSON text: the lexical syntax is not modelled, only what parsing yields (see `Json`).
- OrderEmail.Post: a body that parses but has no `shippingAddress` throws outside any `try` in the route. That case is not modelled, because `RequestBody` holds only a well-shaped payload or an unparseable body.
- `requestAnimationFrame` and `cancelAnimationFrame`: each hydration frame is one method call. Cancelling a frame on unmount is not modelled.
- Checkout.CheckoutPage.PassOrder: `handlePassOrder` is split at its `await` into `BeginPassOrder` and `FinishPassOrder`. Other handlers running between the two are not modelled beyond what the two contracts allow.
- `console.error` logging is left out.
- `router.push("/")` is the `navigatedHome` flag.
- `lib/contact` is not part of this model: `SUPPORT_EMAIL` is a parameter.
- The provider SDK and the network are inputs (`ProviderOutcome`, `FetchOutcome`).
- Cart.CartKey: the storefront reads and writes the literal `"uc-cart"`; the checkout reads it and removes it. The model shares one constant, and one `GetItem`, between the two pages.
