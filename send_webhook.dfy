/** Discord alert payloads and the delivery rule (backend/utils/sendWebhook.js).
    The builders are pure; a number shown in a field is kept as a number
    (Money, StockChange, Units) rather than formatted into text. */
module SendWebhook {
  import opened Js

  const GainedTitle := "\U{2705} BuyBox GAINED"
  const LostTitle := "\U{274C} BuyBox LOST"
  const SaleTitle := "\U{1F4C9} Estimated Sale Detected"
  const GainColor := 0x00ff00
  const LossColor := 0xff0000
  const SaleColor := 0xffa500
  const NoHolder := "None"
  const DefaultKind := "info"
  const NoContent := 204

  /** The system-alert tables, keyed by alert type. */
  const SystemEmojis: map<string, string> :=
    map["info" := "\U{2139}\U{FE0F}", "warning" := "\U{26A0}\U{FE0F}", "error" := "\U{274C}", "success" := "\U{2705}"]
  const SystemColors: map<string, int> :=
    map["info" := 0x0099ff, "warning" := 0xffa500, "error" := 0xff0000, "success" := 0x00ff00]

  datatype FieldValue =
    | Text(text: string)
    | Money(currency: string, amount: Num)          // `${currency} ${price}`
    | StockChange(before: Num, after: Num)          // `${stockBefore} → ${stockAfter}`
    | Units(count: Num)                             // `unitsSold.toString()`
  datatype Field = Field(name: string, value: FieldValue, inline: bool)
  /** An embed; `color` is None where the source puts `undefined` there. */
  datatype Embed = Embed(title: string, description: string, color: Option<int>, fields: seq<Field>)
  datatype Payload = Payload(embeds: seq<Embed>)

  /** The reply to a POST: an HTTP status, or an error the client threw. */
  datatype PostOutcome = Answered(status: int) | Threw(message: string)
  /** A request actually sent. */
  datatype Post = Post(url: string, payload: Payload)
  datatype Delivery = Delivery(request: Option<Post>, ok: bool)

  datatype BuyBoxChange = BuyBoxChange(asin: string, oldSeller: Option<string>, newSeller: Option<string>,
                                       price: Option<Num>, currency: Option<string>, isGain: bool)
  datatype SaleNotice = SaleNotice(asin: string, sellerLabel: string, stockBefore: Num, stockAfter: Num,
                                   unitsSold: Num, productTitle: Option<string>)

  function AsinLine(asin: string): string { "**ASIN:** " + asin }
  function ProductLine(title: string): string { "\n**Product:** " + title }

  /** createBuyBoxAlert; `currency` is None when the caller passed undefined. */
  function CreateBuyBoxAlert(asin: string, oldSeller: Option<string>, newSeller: Option<string>,
                             price: Option<Num>, currency: Option<string>, isGain: bool): (p: Payload)
    ensures |p.embeds| == 1
    ensures p.embeds[0].title == (if isGain then GainedTitle else LostTitle)
    ensures p.embeds[0].color == Some(if isGain then GainColor else LossColor)
    ensures p.embeds[0].description == AsinLine(asin)
    ensures |p.embeds[0].fields| == (if NumTruthy(price) then 3 else 2)
    ensures p.embeds[0].fields[0].name == "Previous Holder" && p.embeds[0].fields[1].name == "New Holder"
    ensures p.embeds[0].fields[0].value == Text(if Truthy(oldSeller) then oldSeller.value else NoHolder)
    ensures p.embeds[0].fields[1].value == Text(if Truthy(newSeller) then newSeller.value else NoHolder)
    ensures NumTruthy(price) ==>
              p.embeds[0].fields[2] ==
              Field("Price", Money(if currency.Some? then currency.value else DefaultCurrency, price.value), true)
    ensures forall f :: f in p.embeds[0].fields ==> f.inline
  {
    var holders := [Field("Previous Holder", Text(OrElse(oldSeller, NoHolder)), true),
                    Field("New Holder", Text(OrElse(newSeller, NoHolder)), true)];
    var cur := if currency.Some? then currency.value else DefaultCurrency;
    var fields := if NumTruthy(price) then holders + [Field("Price", Money(cur, price.value), true)] else holders;
    Payload([Embed(if isGain then GainedTitle else LostTitle, AsinLine(asin),
                   Some(if isGain then GainColor else LossColor), fields)])
  }

  /** createSalesAlert */
  function CreateSalesAlert(asin: string, sellerLabel: string, stockBefore: Num, stockAfter: Num,
                            unitsSold: Num, productTitle: Option<string>): (p: Payload)
    ensures |p.embeds| == 1
    ensures p.embeds[0].title == SaleTitle && p.embeds[0].color == Some(SaleColor)
    ensures p.embeds[0].fields ==
              [Field("Seller", Text(sellerLabel), true),
               Field("Stock Change", StockChange(stockBefore, stockAfter), true),
               Field("Estimated Units Sold", Units(unitsSold), true)]
    ensures p.embeds[0].description ==
              if Truthy(productTitle) then AsinLine(asin) + ProductLine(productTitle.value) else AsinLine(asin)
  {
    var description := AsinLine(asin);
    var description := if Truthy(productTitle) then description + ProductLine(productTitle.value) else description;
    Payload([Embed(SaleTitle, description, Some(SaleColor),
                   [Field("Seller", Text(sellerLabel), true),
                    Field("Stock Change", StockChange(stockBefore, stockAfter), true),
                    Field("Estimated Units Sold", Units(unitsSold), true)])])
  }

  /** createSystemAlert; `kind` is None when the caller passed undefined.
      A type missing from the tables renders as "undefined" and leaves the
      colour undefined, as a template literal and a failed lookup do. */
  function CreateSystemAlert(title: string, message: string, kind: Option<string>): (p: Payload)
    ensures |p.embeds| == 1 && p.embeds[0].fields == [] && p.embeds[0].description == message
    ensures kind.None? ==> p.embeds[0].title == SystemEmojis[DefaultKind] + " " + title &&
                           p.embeds[0].color == Some(SystemColors[DefaultKind])
    ensures kind.Some? && kind.value in SystemEmojis ==>
              p.embeds[0].title == SystemEmojis[kind.value] + " " + title &&
              p.embeds[0].color == Some(SystemColors[kind.value])
    ensures kind.Some? && kind.value !in SystemEmojis ==>
              p.embeds[0].title == "undefined " + title && p.embeds[0].color.None?
  {
    var k := if kind.Some? then kind.value else DefaultKind;
    var emoji := if k in SystemEmojis then SystemEmojis[k] else "undefined";
    var color := if k in SystemColors then Some(SystemColors[k]) else None;
    Payload([Embed(emoji + " " + title, message, color, [])])
  }

  /** sendDiscordWebhook: no request without a URL; success only on 204. */
  function SendDiscordWebhook(url: Option<string>, payload: Payload, outcome: PostOutcome): (d: Delivery)
    ensures !Truthy(url) ==> d.request.None? && !d.ok
    ensures Truthy(url) ==> d.request == Some(Post(url.value, payload))
    ensures d.ok <==> Truthy(url) && outcome == Answered(NoContent)
  {
    if !Truthy(url) then Delivery(None, false)
    else Delivery(Some(Post(url.value, payload)), outcome.Answered? && outcome.status == NoContent)
  }

  /** sendBuyBoxAlert: build the ownership-change embed and post it. */
  function SendBuyBoxAlert(url: Option<string>, data: BuyBoxChange, outcome: PostOutcome): (d: Delivery)
    ensures d.request.Some? <==> Truthy(url)
    ensures d.request.Some? ==>
              d.request.value.url == url.value &&
              d.request.value.payload ==
              CreateBuyBoxAlert(data.asin, data.oldSeller, data.newSeller, data.price, data.currency, data.isGain)
    ensures d.ok <==> Truthy(url) && outcome == Answered(NoContent)
  {
    SendDiscordWebhook(url, CreateBuyBoxAlert(data.asin, data.oldSeller, data.newSeller, data.price,
                                              data.currency, data.isGain), outcome)
  }

  /** sendSalesAlert: build the estimated-sale embed and post it. */
  function SendSalesAlert(url: Option<string>, data: SaleNotice, outcome: PostOutcome): (d: Delivery)
    ensures d.request.Some? <==> Truthy(url)
    ensures d.request.Some? ==>
              d.request.value.url == url.value &&
              d.request.value.payload ==
              CreateSalesAlert(data.asin, data.sellerLabel, data.stockBefore, data.stockAfter,
                               data.unitsSold, data.productTitle)
    ensures d.ok <==> Truthy(url) && outcome == Answered(NoContent)
  {
    SendDiscordWebhook(url, CreateSalesAlert(data.asin, data.sellerLabel, data.stockBefore, data.stockAfter,
                                             data.unitsSold, data.productTitle), outcome)
  }

  /** sendSystemAlert: build a system embed and post it. */
  function SendSystemAlert(url: Option<string>, title: string, message: string, kind: Option<string>,
                           outcome: PostOutcome): (d: Delivery)
    ensures d.request.Some? <==> Truthy(url)
    ensures d.request.Some? ==>
              d.request.value.url == url.value &&
              d.request.value.payload == CreateSystemAlert(title, message, kind)
    ensures d.ok <==> Truthy(url) && outcome == Answered(NoContent)
  {
    SendDiscordWebhook(url, CreateSystemAlert(title, message, kind), outcome)
  }
}
