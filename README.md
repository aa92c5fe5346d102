# Coffee ordering storefront: cart and order relay

A Dafny model of the logic of a small coffee-ordering storefront. The page
keeps a cart of catalog products with quantities, shows its total and item
count, and posts the order with a delivery form to an order route. The route
validates the order, recomputes the total, renders a notification text for the
shop operator and relays it to a messaging service (Telegram), or reports a
simulated success when no credentials are configured.

Files and modules:

- `seqs.dfy` (`Seqs`): `map`, `filter`, a summing `reduce`, `join` and
  `split` over sequences, and the lemmas about them that the rest uses.
- `money.dfy` (`Money`): money as integer cents; `String(n)` for integers and
  `toFixed(2)` for cents, each with a parser and a proved round trip.
- `cart.dfy` (`Cart`): products, cart lines and the page's three cart
  updaters (`addToCart`, `removeFromCart`, `updateQuantity`) as pure
  functions on `seq<CartItem>`, the total and the badge count. The invariant
  `WellFormed` says there is at most one line per product id and every
  quantity is positive.
- `relay.dfy` (`Relay`): the order route's `POST` handler as one pure
  function `Post` from the request, the two credential settings and the
  messaging service's answer, to the response and the outbound call (if any).
  It also holds the item lines, the payment label, the note default and the
  trimmed message template.
- `storefront.dfy` (`Storefront`): the page component as the class
  `CoffeeMenu` with the fields `lang`, `cart`, `isSubmitting` and
  `isSuccess`. Its methods apply the updaters. `HandleSubmit` builds the
  payload and calls the route through a function parameter. Lemmas at the end
  connect the page to `Relay.Post`.

Catalog prices are whole cents (1.25 is 125), so sums and line totals are
exact integers. JSON fields a body may lack are `Option`s. A string field or
environment setting counts as given when it is present and non-empty, which
is JavaScript truthiness for strings.

Behaviours of the code worth knowing when reading the model:

- A non-2xx answer from the messaging service and every other fault give the
  same 500 response with the body "Internal Server Error"
  (app/api/order/route.ts:60-69).
- An absent item list is rejected like an empty one, and a request body that
  is not JSON gives a 500.
- `updateQuantity` takes any delta and clamps the new quantity at 0; the
  page's buttons pass 1 and -1.
- The route checks nothing inside an item, so negative prices and quantities
  reach its total and its text as they are.

## Model

| member | source | states |
|---|---|---|
| `Money.NatToString` | app/api/order/route.ts:18 | a quantity is written as decimal digits, at least one, with no leading zero |
| `Money.IntToString` | app/api/order/route.ts:18 | an integer is written as digits, minus signs and points only, so it never breaks a line |
| `Money.FormatCents` | app/api/order/route.ts:33 | `toFixed(2)` on an amount of cents writes only digits, a sign and a point |
| `Money.NatRoundTrip` | app/api/order/route.ts:18 | parsing the written digits gives back the number |
| `Money.IntRoundTrip` | app/api/order/route.ts:18 | parsing the written quantity gives back the quantity, negative ones included |
| `Money.CentsRoundTrip` | app/api/order/route.ts:33 | parsing the "D.CC" text gives back the exact amount in cents |
| `Money.FormatCentsShape` | app/api/order/route.ts:18 | every amount is shown with exactly two digits after the point |
| `Cart.Find` | app/page.tsx:441 | `find` gives a line exactly when one has the id, and it gives the first such line |
| `Cart.AddExisting` | app/page.tsx:441-443 | adding a product the cart holds raises that line by exactly 1 and leaves every other line and the order unchanged |
| `Cart.AddAbsent` | app/page.tsx:445 | adding a product the cart lacks appends one line with quantity 1 at the end |
| `Cart.AddKeepsWellFormed` | app/page.tsx:440-446 | adding keeps one line per id and positive quantities; the badge grows by 1 and the total by one unit price |
| `Cart.AddTimesAbsent` | app/page.tsx:440-446 | n additions of a product the cart lacks give exactly one line for it, at the end, with quantity n |
| `Cart.RemoveExisting` | app/page.tsx:452-454 | removing takes out exactly the line with that id and keeps the others in order; total and badge drop by that line's share |
| `Cart.RemoveAbsent` | app/page.tsx:453 | removing an id the cart lacks changes nothing |
| `Cart.RemoveKeepsWellFormed` | app/page.tsx:452-454 | removing keeps the cart invariant |
| `Cart.UpdateExisting` | app/page.tsx:457-469 | the line's quantity becomes quantity + delta in place when that is positive, otherwise the line is removed; the badge changes by the clamped difference |
| `Cart.UpdateAbsent` | app/page.tsx:459-467 | adjusting an id a well-formed cart lacks leaves it unchanged, with no error |
| `Cart.UpdateKeepsWellFormed` | app/page.tsx:457-469 | every adjustment keeps one line per id and positive quantities |
| `Cart.DecrementLastUnitRemoves` | app/page.tsx:681-684 | the minus (trash) button on a quantity-1 line gives the same cart as removing the line |
| `Cart.DecrementTimesRemoves` | app/page.tsx:457-469 | pressing minus as often as the quantity, or more, removes the line and nothing else |
| `Cart.DecrementAbsent` | app/page.tsx:459-467 | minus on a product with no line changes nothing, however often it is pressed |
| `Cart.ItemCountAtLeastLines` | app/page.tsx:574-577 | the badge count is at least the number of lines, and 0 only for an empty cart |
| `Cart.TotalNonNegative` | app/page.tsx:471 | the total of a cart with positive quantities is never negative |
| `Cart.AddToCart` | app/page.tsx:440-446 | addToCart's updater; `AddExisting` and `AddAbsent` below state its result in each of the two cases |
| `Cart.RemoveFromCart` | app/page.tsx:452-454 | no line with the removed id is left, and the cart never grows |
| `Cart.Clamped` | app/page.tsx:462 | `Math.max(0, quantity + delta)`: at least quantity + delta, never negative, and equal to one of the two |
| `Cart.Adjusted` | app/page.tsx:459-466 | the `map` step keeps every line's product and position, gives the line with the id its clamped quantity and leaves the others as they were |
| `Cart.UpdateQuantity` | app/page.tsx:457-469 | after the `filter` step every remaining line has a positive quantity and the cart never grows |
| `Cart.Total` | app/page.tsx:471 | the sum of price times quantity over the lines; `TotalNonNegative`, `AddKeepsWellFormed` and `RemoveExisting` state its value and changes |
| `Cart.ItemCount` | app/page.tsx:576 | the badge: the sum of the quantities; `ItemCountAtLeastLines` bounds it |
| `Relay.Total` | app/api/order/route.ts:12 | the route's own sum of price times quantity; `Storefront.PostedTotalIsCartTotal` equates it with the page's total |
| `Relay.ItemLine` | app/api/order/route.ts:18 | an item's line starts with the bullet and holds no line break unless the item's name does |
| `Relay.ItemLineShows` | app/api/order/route.ts:18 | the line is the bullet, the name, " x", a quantity that reads back as the item's quantity, " ($", an amount that reads back as price times quantity, and ")" |
| `Relay.ItemsList` | app/api/order/route.ts:17-19 | the list is empty exactly when there are no items, and otherwise starts with a bullet |
| `Relay.ItemsListLines` | app/api/order/route.ts:17-19 | the item list splits at its line breaks into exactly one bullet line per item, in input order |
| `Relay.PaymentDisplay` | app/api/order/route.ts:21 | the KHQR label is shown exactly when the status is "paid"; anything else shows "Pay on Delivery" |
| `Relay.NoteDisplay` | app/api/order/route.ts:36 | a non-empty note appears verbatim; an empty or absent note is shown as "None" |
| `Relay.TrimStart` | app/api/order/route.ts:39 | trimming the front leaves a suffix of the text that starts with a visible character |
| `Relay.TrimEnd` | app/api/order/route.ts:39 | trimming the end leaves a prefix of the text that ends with a visible character |
| `Relay.TrimPadded` | app/api/order/route.ts:39 | trim removes the surrounding whitespace and nothing of a text that starts and ends visibly |
| `Relay.Trim` | app/api/order/route.ts:39 | `trim()` leaves no whitespace at either end and never lengthens the text |
| `Relay.MessageBody` | app/api/order/route.ts:23-38 | the notification text from the heading to the signature, with name, phone, location, item list, total, payment label and note; `MessageIsBody` ties it to the text sent |
| `Relay.Message` | app/api/order/route.ts:23-39 | the trimmed template literal; `MessageIsBody` shows it is the body exactly |
| `Relay.MessageIsBody` | app/api/order/route.ts:23-39 | the text sent is the template without its opening newline and closing indentation, and no customer text is trimmed |
| `Relay.Post` | app/api/order/route.ts:3-71 | 400 "Missing required fields", with no call made, exactly when name, phone or location is empty or absent or the items are absent or empty; a simulated success with no call exactly when a credential is missing; otherwise one call carrying the message, then success if the service answers 2xx and a fixed 500 "Internal Server Error" otherwise |
| `Relay.ExampleTotal` | app/api/order/route.ts:12 | items 1.25 x 2 and 2.00 x 1 total "4.50" |
| `Storefront.OrderItems` | app/page.tsx:480-483 | the posted items keep the cart's length and order, each with its id, price and quantity and the name in the active language |
| `Storefront.Payload` | app/page.tsx:485-492 | the posted body carries the form's five fields unchanged and an item list whose route total is the cart total |
| `Storefront.PostedTotalIsCartTotal` | app/api/order/route.ts:12 | the total the route computes from the posted items equals the cart total the page shows, in every language |
| `Storefront.PayloadValidity` | app/api/order/route.ts:8-9 | the route accepts what the page posts exactly when the cart is non-empty and name, phone and location are filled in |
| `Storefront.SimulatedOrderAccepted` | app/api/order/route.ts:41-44 | without credentials a complete order gets a 2xx answer and nothing is sent |
| `Storefront.RelayFailureRejected` | app/api/order/route.ts:60-69 | with credentials, a failed delivery never gets a 2xx answer |
| `Storefront.CoffeeMenu.constructor` | app/page.tsx:413-417 | the page starts in Khmer with an empty cart and both submission flags false |
| `Storefront.CoffeeMenu.TotalAmount` | app/page.tsx:471 | `totalAmount` is never negative while the cart invariant holds |
| `Storefront.CoffeeMenu.SetLanguage` | app/page.tsx:556 | the language switch sets the active language |
| `Storefront.CoffeeMenu.AddToCart` | app/page.tsx:435-449 | the cart becomes the addToCart updater applied to the old cart, and the invariant holds |
| `Storefront.CoffeeMenu.RemoveFromCart` | app/page.tsx:452-454 | the cart becomes the removeFromCart updater applied to the old cart, and the invariant holds |
| `Storefront.CoffeeMenu.UpdateQuantity` | app/page.tsx:457-469 | the cart becomes the updateQuantity updater applied to the old cart, and the invariant holds |
| `Storefront.CoffeeMenu.HandleSubmit` | app/page.tsx:473-518 | an empty cart posts nothing and changes nothing; otherwise it posts the form with the projected items, empties the cart and sets success on a 2xx answer, leaves the cart untouched otherwise, and is never left submitting |
| `Storefront.CoffeeMenu.OrderMore` | app/page.tsx:530 | "order more" leaves the success screen |
| `Storefront.CheckoutWithoutCredentials` | app/page.tsx:501-504 | submitting a complete order through the route without credentials empties the cart and shows success |

## Left out

- Rendering, styling, category scrolling, the checkout scroll, the `alert`
  on failure and `console` logging: presentation and I/O only.
- The 300 ms delay and the `loadingId` spinner of `addToCart`: the add is
  applied at once.
- The catalog, category and translation tables: static data. Only the
  product record (id, name in three languages, price, image, category) is
  modelled.
- The `paymentConfirmed` flag, which success also resets: client-only state
  with no effect on the payload or the route.
- `request.json()` parsing: a body is either not JSON (a 500, as the code
  does) or a well-typed payload. JSON values of other types in the fields
  (numbers, objects) are not modelled.
- `fetch` to the route and to the messaging service, `process.env` and the
  network: the fetch result, the two credential settings and the messaging
  service's answer are inputs. A timeout of the outbound call is not
  modelled separately; it is one of the faults that give a 500.
- Floating-point arithmetic: money is integer cents. `toFixed(2)` is modelled
  exactly for whole cents; its exponent notation for amounts of 1e21 and
  more is not modelled.
- `Storefront.CoffeeMenu.HandleSubmit`: `isSubmitting` is true while the
  fetch runs. The fetch is one function call here, so the model does not
  show that intermediate state. It proves only the state before and after.
  While the fetch is pending, the page keeps the add and +/- buttons
  enabled, and a delayed add can also land then. The model does not cover
  cart edits made in that window. In the code, a 2xx answer runs
  `setCart([])` and so discards them without posting them; after a failure
  they stay in the cart.
