/**
 * The storefront page's state and its order submission. The page holds the
 * active language, the cart, and two submission flags; its buttons apply the
 * cart updaters, and submitting the delivery form sends the cart, with every
 * name resolved to the active language, to the order route.
 *
 * The browser's fetch of the order route is a function parameter of
 * HandleSubmit: what the route answers is Relay.Post, which the lemmas at the
 * end connect to the page.
 */
module Storefront {
  import opened Seqs
  import opened Money
  import opened Cart
  import Relay

  /** The delivery form as FormData.get reads it: None for a field the form does not have. */
  datatype FormData = FormData(
    name: Option<string>,
    phone: Option<string>,
    location: Option<string>,
    paymentStatus: Option<string>,
    notes: Option<string>)

  /** What the fetch of the order route gives: a response, or a rejection before any response. */
  datatype FetchOutcome = Responded(response: Relay.Response) | NetworkError

  /** `response.ok`: a 2xx status. */
  predicate Accepted(outcome: FetchOutcome)
  {
    outcome.Responded? && 200 <= outcome.response.status <= 299
  }

  /** One cart line as an order item: the line with its name in the given language. */
  function ToOrderItem(lang: Language, item: CartItem): Relay.OrderItem
  {
    Relay.OrderItem(item.product.id, Localize(item.product.name, lang), item.product.price,
                    item.product.image, item.product.category, item.quantity)
  }

  /**
   * The items of the order: one per cart line, in cart order, each with the
   * line's id, price and quantity and its name in the active language.
   */
  function OrderItems(cart: seq<CartItem>, lang: Language): (items: seq<Relay.OrderItem>)
    ensures |items| == |cart|
    ensures forall i :: 0 <= i < |cart| ==>
      && items[i].id == cart[i].Id()
      && items[i].name == Localize(cart[i].product.name, lang)
      && items[i].price == cart[i].product.price
      && items[i].quantity == cart[i].quantity
  {
    Map(cart, (item: CartItem) => ToOrderItem(lang, item))
  }

  /**
   * The body the page posts: the form's fields and the order items, whose
   * total as the route computes it is the cart total the page shows.
   */
  function Payload(form: FormData, cart: seq<CartItem>, lang: Language): (p: Relay.OrderPayload)
    ensures p.name == form.name && p.phone == form.phone && p.location == form.location
    ensures p.paymentStatus == form.paymentStatus && p.notes == form.notes
    ensures p.items.Some? && Relay.Total(p.items.value) == Total(cart)
  {
    PostedTotalIsCartTotal(cart, lang);
    Relay.OrderPayload(form.name, form.phone, form.location, form.paymentStatus, form.notes,
                       Some(OrderItems(cart, lang)))
  }

  /** The coffee menu page's state. */
  class CoffeeMenu {
    var lang: Language
    var cart: seq<CartItem>
    var isSubmitting: bool
    var isSuccess: bool

    predicate Valid()
      reads this
    {
      WellFormed(cart)
    }

    /** The page opens in Khmer with an empty cart and no submission under way. */
    constructor ()
      ensures Valid()
      ensures lang == Km && cart == [] && !isSubmitting && !isSuccess
    {
      lang := Km;
      cart := [];
      isSubmitting := false;
      isSuccess := false;
    }

    /** `totalAmount`, shown beside the cart and on the order button. */
    function TotalAmount(): (t: Cents)
      reads this
      ensures Valid() ==> t >= 0
    {
      assert Valid() ==> Total(cart) >= 0 by {
        if Valid() { TotalNonNegative(cart); }
      }
      Total(cart)
    }

    method SetLanguage(l: Language)
      modifies this`lang
      ensures lang == l
    {
      lang := l;
    }

    /** An add button: applies the addToCart updater (the loading delay is not modelled). */
    method AddToCart(product: Product)
      requires Valid()
      modifies this`cart
      ensures Valid()
      ensures cart == Cart.AddToCart(old(cart), product)
    {
      AddKeepsWellFormed(cart, product);
      cart := Cart.AddToCart(cart, product);
    }

    method RemoveFromCart(id: string)
      requires Valid()
      modifies this`cart
      ensures Valid()
      ensures cart == Cart.RemoveFromCart(old(cart), id)
    {
      RemoveKeepsWellFormed(cart, id);
      cart := Cart.RemoveFromCart(cart, id);
    }

    /** The plus and minus buttons of a cart line (delta 1 and -1). */
    method UpdateQuantity(id: string, delta: int)
      requires Valid()
      modifies this`cart
      ensures Valid()
      ensures cart == Cart.UpdateQuantity(old(cart), id, delta)
    {
      UpdateKeepsWellFormed(cart, id, delta);
      cart := Cart.UpdateQuantity(cart, id, delta);
    }

    /**
     * Submitting the delivery form. An empty cart submits nothing. Otherwise
     * the page posts the payload; when the route answers with a 2xx status
     * the cart is emptied and the success screen shown, and on any other
     * answer or a rejected fetch the cart stays as it was. Either way the
     * page is no longer submitting afterwards.
     */
    method HandleSubmit(form: FormData, fetchOrder: Relay.OrderPayload -> FetchOutcome)
      returns (posted: Option<Relay.OrderPayload>)
      requires Valid()
      modifies this`cart, this`isSubmitting, this`isSuccess
      ensures Valid()
      ensures old(cart) == [] ==>
        posted == None && cart == old(cart) && isSubmitting == old(isSubmitting) && isSuccess == old(isSuccess)
      ensures old(cart) != [] ==> posted == Some(Payload(form, old(cart), lang)) && !isSubmitting
      ensures old(cart) != [] ==> Relay.Total(posted.value.items.value) == old(TotalAmount())
      ensures old(cart) != [] && Accepted(fetchOrder(posted.value)) ==> cart == [] && isSuccess
      ensures old(cart) != [] && !Accepted(fetchOrder(posted.value)) ==>
        cart == old(cart) && isSuccess == old(isSuccess)
    {
      if cart == [] {
        return None;
      }
      isSubmitting := true;
      var payload := Payload(form, cart, lang);
      posted := Some(payload);
      var outcome := fetchOrder(payload);
      if Accepted(outcome) {
        isSuccess := true;
        cart := [];
      }
      isSubmitting := false;
    }

    /** The success screen's "order more" button. */
    method OrderMore()
      modifies this`isSuccess
      ensures !isSuccess
    {
      isSuccess := false;
    }
  }

  /**
   * The total the route computes from the posted items equals the total the
   * page shows for the cart, whatever the language.
   */
  lemma {:induction false} PostedTotalIsCartTotal(cart: seq<CartItem>, lang: Language)
    ensures Relay.Total(OrderItems(cart, lang)) == Total(cart)
  {
    if cart != [] {
      var init := cart[..|cart| - 1];
      var items := OrderItems(cart, lang);
      assert items[..|items| - 1] == OrderItems(init, lang);
      PostedTotalIsCartTotal(init, lang);
    }
  }

  /** The route accepts what the page posts exactly when the cart is non-empty and name, phone and location are filled in. */
  lemma PayloadValidity(form: FormData, cart: seq<CartItem>, lang: Language)
    ensures Relay.HasRequiredFields(Payload(form, cart, lang)) <==>
      cart != [] && Relay.Truthy(form.name) && Relay.Truthy(form.phone) && Relay.Truthy(form.location)
  {
  }

  /** What the page's fetch gives when the route answers (no network failure). */
  function ViaRoute(env: Relay.Env, sink: Relay.SinkResult): Relay.OrderPayload -> FetchOutcome
  {
    (p: Relay.OrderPayload) => Responded(Relay.Post(Relay.Json(p), env, sink).response)
  }

  /**
   * Without messaging credentials a complete order is accepted, so the page
   * empties the cart exactly as after a real delivery; nothing is sent.
   */
  lemma SimulatedOrderAccepted(form: FormData, cart: seq<CartItem>, lang: Language, env: Relay.Env, sink: Relay.SinkResult)
    requires cart != [] && Relay.Truthy(form.name) && Relay.Truthy(form.phone) && Relay.Truthy(form.location)
    requires !Relay.Configured(env)
    ensures Accepted(ViaRoute(env, sink)(Payload(form, cart, lang)))
    ensures Relay.Post(Relay.Json(Payload(form, cart, lang)), env, sink).outbound == None
  {
    PayloadValidity(form, cart, lang);
  }

  /**
   * With credentials configured, a messaging-service failure is not accepted,
   * so the page keeps the cart for another attempt.
   */
  lemma RelayFailureRejected(form: FormData, cart: seq<CartItem>, lang: Language, env: Relay.Env, sink: Relay.SinkResult)
    requires Relay.Configured(env) && sink != Relay.SinkOk
    ensures !Accepted(ViaRoute(env, sink)(Payload(form, cart, lang)))
  {
  }

  /** A well-formed cart submitted through the route without credentials: the page ends empty and on the success screen. */
  method CheckoutWithoutCredentials(page: CoffeeMenu, form: FormData, sink: Relay.SinkResult)
    requires page.Valid() && page.cart != []
    requires Relay.Truthy(form.name) && Relay.Truthy(form.phone) && Relay.Truthy(form.location)
    modifies page
    ensures page.cart == [] && page.isSuccess && !page.isSubmitting
  {
    var env := Relay.Env(None, None);
    SimulatedOrderAccepted(form, page.cart, page.lang, env, sink);
    var posted := page.HandleSubmit(form, ViaRoute(env, sink));
  }
}
