/**
 * The order relay: the server's handler for a submitted order. It checks the
 * required fields, recomputes the total from the items, renders the
 * operator's notification text, and either reports a simulated success (no
 * messaging credentials configured) or sends the text to the messaging
 * service and maps its answer to the response.
 *
 * The handler is one pure function, Post, from the request, the configured
 * credentials and the messaging service's answer to the response and the
 * outbound message (None when no call is made).
 */
module Relay {
  import opened Seqs
  import opened Money

  /**
   * One ordered item as the client sends it: the cart line with its name in
   * one language. The handler checks nothing inside an item, so any price
   * and quantity, negative ones included, reach the total and the text.
   */
  datatype OrderItem = OrderItem(id: string, name: string, price: int, image: string, category: string, quantity: int)

  /** The JSON order body. A field the body lacks (or sends as null) is None. */
  datatype OrderPayload = OrderPayload(
    name: Option<string>,
    phone: Option<string>,
    location: Option<string>,
    paymentStatus: Option<string>,
    notes: Option<string>,
    items: Option<seq<OrderItem>>)

  /** The request as read by `request.json()`: a body that is not JSON makes it throw. */
  datatype Request = Malformed | Json(payload: OrderPayload)

  /** The two environment settings for the messaging service. */
  datatype Env = Env(telegramToken: Option<string>, telegramChatId: Option<string>)

  /** What the messaging service's endpoint does with the call. */
  datatype SinkResult =
    | SinkOk      // answers with a 2xx status
    | SinkNotOk   // answers with any other status
    | SinkFault   // the call itself throws (unreachable host, unreadable answer)

  datatype Body = Success(simulated: bool) | Failure(error: string)

  datatype Response = Response(status: int, body: Body)

  /** The call to the messaging service's sendMessage endpoint. */
  datatype TelegramMessage = TelegramMessage(url: string, chatId: string, text: string, parseMode: string)

  /** The handler's response and the outbound call it made, if any. */
  datatype Outcome = Outcome(response: Response, outbound: Option<TelegramMessage>)

  const MissingFields: Response := Response(400, Failure("Missing required fields"))
  const InternalError: Response := Response(500, Failure("Internal Server Error"))
  const PaidLabel: string := "\U{2705} KHQR Payment (Customer Confirmed)"
  const OnDeliveryLabel: string := "\U{1F4B5} Pay on Delivery"

  /** JavaScript truthiness of a string field: present and not empty. */
  predicate Truthy(v: Option<string>)
  {
    v.Some? && v.value != ""
  }

  /** The handler's only validation: name, phone and location given, and a non-empty item list. */
  predicate HasRequiredFields(p: OrderPayload)
  {
    Truthy(p.name) && Truthy(p.phone) && Truthy(p.location) && p.items.Some? && |p.items.value| > 0
  }

  /** Both messaging credentials are set. */
  predicate Configured(env: Env)
  {
    Truthy(env.telegramToken) && Truthy(env.telegramChatId)
  }

  function LineTotal(item: OrderItem): int
  {
    item.price * item.quantity
  }

  /** The server's own total: the sum of price times quantity over the submitted items. */
  function Total(items: seq<OrderItem>): Cents
  {
    SumOf(items, LineTotal)
  }

  /** One bullet line of the order: name, quantity and line total. */
  function ItemLine(item: OrderItem): (line: string)
    ensures |line| >= 2 && line[0] == '\U{2022}'
    ensures '\n' !in item.name ==> '\n' !in line
  {
    var tail := " x" + IntToString(item.quantity) + " ($" + FormatCents(LineTotal(item)) + ")";
    assert '\n' !in tail by {
      assert NumericText(IntToString(item.quantity)) && NumericText(FormatCents(LineTotal(item)));
    }
    "\U{2022} " + item.name + tail
  }

  /**
   * An item's line shows its name, then a quantity that reads back as the
   * item's quantity, then an amount that reads back as price times quantity.
   */
  lemma ItemLineShows(item: OrderItem)
    ensures exists q: string, t: string ::
      && ItemLine(item) == "\U{2022} " + item.name + " x" + q + " ($" + t + ")"
      && ParseInt(q) == Some(item.quantity)
      && ParseCents(t) == Some(item.price * item.quantity)
  {
    var q, t := IntToString(item.quantity), FormatCents(LineTotal(item));
    IntRoundTrip(item.quantity);
    CentsRoundTrip(LineTotal(item));
    assert ItemLine(item) == "\U{2022} " + item.name + " x" + q + " ($" + t + ")";
  }

  /** The bullet lines of all items, one per line. */
  function ItemsList(items: seq<OrderItem>): (list: string)
    ensures list == [] <==> items == []
    ensures items != [] ==> list[0] == '\U{2022}'
  {
    var lines := Map(items, ItemLine);
    if items == [] then Join(lines, '\n')
    else
      assert Join(lines, '\n')[..|lines[0]|] == lines[0];
      Join(lines, '\n')
  }

  /** The payment label: the paid label exactly when the status is "paid". */
  function PaymentDisplay(paymentStatus: Option<string>): (shown: string)
    ensures shown == PaidLabel <==> paymentStatus == Some("paid")
    ensures shown != PaidLabel ==> shown == OnDeliveryLabel
  {
    if paymentStatus == Some("paid") then PaidLabel else OnDeliveryLabel
  }

  /** `notes || "None"` */
  function NoteDisplay(notes: Option<string>): (text: string)
    ensures Truthy(notes) ==> text == notes.value
    ensures !Truthy(notes) ==> text == "None"
  {
    if Truthy(notes) then notes.value else "None"
  }

  /** The characters String.prototype.trim removes. */
  predicate IsWhitespace(c: char)
  {
    c == '\t' || c == '\n' || c == '\U{000B}' || c == '\U{000C}' || c == '\r' || c == ' '
    || c == '\U{00A0}' || c == '\U{1680}' || ('\U{2000}' <= c <= '\U{200A}')
    || c == '\U{2028}' || c == '\U{2029}' || c == '\U{202F}' || c == '\U{205F}'
    || c == '\U{3000}' || c == '\U{FEFF}'
  }

  function TrimStart(s: string): (r: string)
    ensures |r| <= |s| && r == s[|s| - |r|..]
    ensures r == [] || !IsWhitespace(r[0])
  {
    if s != [] && IsWhitespace(s[0]) then TrimStart(s[1..]) else s
  }

  function TrimEnd(s: string): (r: string)
    ensures |r| <= |s| && r == s[..|r|]
    ensures r == [] || !IsWhitespace(r[|r| - 1])
  {
    if s != [] && IsWhitespace(s[|s| - 1]) then TrimEnd(s[..|s| - 1]) else s
  }

  /** `s.trim()`: no whitespace left at either end. */
  function Trim(s: string): (r: string)
    ensures |r| <= |s|
    ensures r == [] || (!IsWhitespace(r[0]) && !IsWhitespace(r[|r| - 1]))
  {
    TrimEnd(TrimStart(s))
  }

  const Heading: string := "\U{1F9FE} *NEW ORDER RECEIVED*"
  const Signature: string := "_Sent from Coffee App_"

  /** The lines of the notification between its heading and its signature. */
  function MessageDetails(p: OrderPayload): string
    requires HasRequiredFields(p)
  {
    "\n\n"
    + "\U{1F464} *Customer:* " + p.name.value + "\n"
    + "\U{1F4F1} *Phone:* " + p.phone.value + "\n"
    + "\U{1F4CD} *Location:* " + p.location.value + "\n\n"
    + "\U{1F6D2} *Order Items:*\n"
    + ItemsList(p.items.value) + "\n\n"
    + "\U{1F4B5} *Total Amount:* $" + FormatCents(Total(p.items.value)) + "\n\n"
    + "\U{1F4B0} *Payment:* " + PaymentDisplay(p.paymentStatus) + "\n"
    + "\U{1F4DD} *Note:* " + NoteDisplay(p.notes) + "\n\n"
  }

  /** The notification text between the template's opening newline and its closing indentation. */
  function MessageBody(p: OrderPayload): string
    requires HasRequiredFields(p)
  {
    Heading + MessageDetails(p) + Signature
  }

  /** The template literal as written: a newline, the text, a newline and the closing indentation. */
  function MessageTemplate(p: OrderPayload): string
    requires HasRequiredFields(p)
  {
    "\n" + MessageBody(p) + "\n    "
  }

  /** The notification text: the trimmed template. */
  function Message(p: OrderPayload): string
    requires HasRequiredFields(p)
  {
    Trim(MessageTemplate(p))
  }

  function TelegramUrl(token: string): string
  {
    "https://api.telegram.org/bot" + token + "/sendMessage"
  }

  /** The POST handler of the order route. */
  function Post(request: Request, env: Env, sink: SinkResult): (o: Outcome)
    ensures o.response.status == 400 <==> request.Json? && !HasRequiredFields(request.payload)
    ensures o.response.status == 400 ==> o.response == MissingFields && o.outbound == None
    ensures o.outbound.Some? <==> request.Json? && HasRequiredFields(request.payload) && Configured(env)
    ensures o.outbound.Some? ==>
      o.outbound.value == TelegramMessage(TelegramUrl(env.telegramToken.value), env.telegramChatId.value,
                                          Message(request.payload), "Markdown")
    ensures o.response.body.Success? <==>
      request.Json? && HasRequiredFields(request.payload) && (!Configured(env) || sink == SinkOk)
    ensures o.response.body.Success? ==> o.response.status == 200 && (o.response.body.simulated <==> !Configured(env))
    ensures o.response.body.Failure? ==> o.response == MissingFields || o.response == InternalError
  {
    match request
    case Malformed => Outcome(InternalError, None)
    case Json(p) =>
      if !HasRequiredFields(p) then Outcome(MissingFields, None)
      else if !Configured(env) then Outcome(Response(200, Success(true)), None)
      else
        var call := TelegramMessage(TelegramUrl(env.telegramToken.value), env.telegramChatId.value, Message(p), "Markdown");
        if sink == SinkOk then Outcome(Response(200, Success(false)), Some(call))
        else Outcome(InternalError, Some(call))
  }

  /**
   * The trim in the handler removes only the template's own opening newline
   * and closing indentation: the text sent is the body exactly.
   */
  lemma {:induction false} TrimStartPadded(ws: string, b: string)
    requires forall i :: 0 <= i < |ws| ==> IsWhitespace(ws[i])
    requires b != [] && !IsWhitespace(b[0])
    ensures TrimStart(ws + b) == b
  {
    if ws != [] {
      assert (ws + b)[1..] == ws[1..] + b;
      TrimStartPadded(ws[1..], b);
    }
  }

  lemma {:induction false} TrimEndPadded(b: string, ws: string)
    requires forall i :: 0 <= i < |ws| ==> IsWhitespace(ws[i])
    requires b != [] && !IsWhitespace(b[|b| - 1])
    ensures TrimEnd(b + ws) == b
  {
    if ws != [] {
      assert (b + ws)[..|b + ws| - 1] == b + ws[..|ws| - 1];
      TrimEndPadded(b, ws[..|ws| - 1]);
    }
  }

  /** Trimming removes surrounding whitespace and nothing of a text that starts and ends with a visible character. */
  lemma TrimPadded(pre: string, b: string, post: string)
    requires forall i :: 0 <= i < |pre| ==> IsWhitespace(pre[i])
    requires forall i :: 0 <= i < |post| ==> IsWhitespace(post[i])
    requires b != [] && !IsWhitespace(b[0]) && !IsWhitespace(b[|b| - 1])
    ensures Trim(pre + b + post) == b
  {
    assert pre + b + post == pre + (b + post);
    TrimStartPadded(pre, b + post);
    TrimEndPadded(b, post);
  }

  /**
   * The trim in the handler removes only the template's own opening newline
   * and closing indentation: the text sent is the body exactly.
   */
  lemma MessageIsBody(p: OrderPayload)
    requires HasRequiredFields(p)
    ensures Message(p) == MessageBody(p)
  {
    BodyEnds(p);
    TrimTemplate(MessageBody(p));
  }

  /** The body starts with the heading's receipt emoji and ends with the signature's underscore. */
  lemma BodyEnds(p: OrderPayload)
    requires HasRequiredFields(p)
    ensures var b := MessageBody(p); b != [] && b[0] == '\U{1F9FE}' && b[|b| - 1] == '_'
  {
    FirstAndLast(Heading, MessageDetails(p), Signature);
  }

  /** Trimming the template literal around a body that starts and ends visibly gives the body. */
  lemma TrimTemplate(b: string)
    requires b != [] && b[0] == '\U{1F9FE}' && b[|b| - 1] == '_'
    ensures Trim("\n" + b + "\n    ") == b
  {
    TrimPadded("\n", b, "\n    ");
  }

  lemma FirstAndLast(h: string, m: string, t: string)
    requires h != [] && t != []
    ensures (h + m + t)[0] == h[0] && (h + m + t)[|h + m + t| - 1] == t[|t| - 1]
  {
  }

  /**
   * The item list has exactly one line per item, in input order, when no
   * item name holds a line break.
   */
  lemma ItemsListLines(items: seq<OrderItem>)
    requires |items| >= 1
    requires forall i :: 0 <= i < |items| ==> '\n' !in items[i].name
    ensures Split(ItemsList(items), '\n') == Map(items, ItemLine)
    ensures |Split(ItemsList(items), '\n')| == |items|
  {
    SplitJoin(Map(items, ItemLine), '\n');
  }

  /** Two items, 1.25 x 2 and 2.00 x 1, total "4.50". */
  lemma ExampleTotal()
    ensures FormatCents(Total([OrderItem("hc2", "Hot Americano", 125, "", "", 2),
                               OrderItem("fd10", "Red Tea Frappe", 200, "", "", 1)])) == "4.50"
  {
    var a := OrderItem("hc2", "Hot Americano", 125, "", "", 2);
    var b := OrderItem("fd10", "Red Tea Frappe", 200, "", "", 1);
    assert [a, b][..1] == [a] && [a][..0] == [];
    assert SumOf([a], LineTotal) == 250;
    assert Total([a, b]) == SumOf([a], LineTotal) + 200;
  }
}
