/**
 * The pure pieces of the order handler: bearer-token extraction, body validation,
 * the item-row mapping and the normalisation of the totals reply.
 */
module OrderRules {
  import opened Wrappers
  import opened Json
  import opened Orders

  const BearerPrefix: string := "Bearer "

  /** `s.startsWith(p)`, case-sensitive. */
  predicate StartsWith(s: string, p: string) {
    |p| <= |s| && s[..|p|] == p
  }

  /**
   * `(header ?? "").startsWith("Bearer ") ? (header ?? "").slice(7) : null`: the token is
   * exactly what follows the prefix. It may still be empty; the handler rejects that.
   */
  function SliceBearer(header: Option<string>): (token: Option<string>)
    ensures token.Some? <==> header.Some? && StartsWith(header.value, BearerPrefix)
    ensures token.Some? ==> header.value == BearerPrefix + token.value
  {
    var h := if header.Some? then header.value else "";
    if StartsWith(h, BearerPrefix) then Some(h[|BearerPrefix|..]) else None
  }

  /** Every token round-trips through the header it is sent in. */
  lemma SliceBearerOfPrefixed(token: string)
    ensures SliceBearer(Some(BearerPrefix + token)) == Some(token)
  {
  }

  /**
   * Validation of the parsed body, in the handler's order: both names truthy, then
   * `items` a non-empty array. The body is read only through these three fields.
   */
  function CheckPayload(payload: Value): (r: Result<Draft, Failure>)
    ensures r.Ok? <==>
      && Truthy(Get(payload, "recipient_name"))
      && Truthy(Get(payload, "shipping_address"))
      && IsNonEmptyArray(Get(payload, "items"))
    ensures r.Ok? ==>
      && r.value.recipientName == Get(payload, "recipient_name")
      && r.value.shippingAddress == Get(payload, "shipping_address")
      && Get(payload, "items") == Arr(r.value.items)
      && |r.value.items| > 0
    ensures r.Err? ==> r.error == MissingFields || r.error == NoItems
    ensures r == Err(MissingFields) <==>
      !Truthy(Get(payload, "recipient_name")) || !Truthy(Get(payload, "shipping_address"))
  {
    var recipientName := Get(payload, "recipient_name");
    var shippingAddress := Get(payload, "shipping_address");
    var items := Get(payload, "items");
    if !Truthy(recipientName) || !Truthy(shippingAddress) then Err(MissingFields)
    else if !IsNonEmptyArray(items) then Err(NoItems)
    else Ok(Draft(recipientName, shippingAddress, items.elems))
  }

  /**
   * `items.map(it => ({order_id, item_id: it.item_id, quantity: it.quantity}))`.
   * Reading a property of a null element throws a TypeError (`None`); otherwise row i
   * carries the order id and item i's `item_id` and `quantity`, unchanged.
   */
  function ItemRows(items: seq<Value>, orderId: string): (r: Option<seq<ItemRow>>)
    ensures r.Some? <==> forall i :: 0 <= i < |items| ==> !Nullish(items[i])
    ensures r.Some? ==> |r.value| == |items|
    ensures r.Some? ==> forall i :: 0 <= i < |items| ==>
      && r.value[i].orderId == orderId
      && r.value[i].itemId == Get(items[i], "item_id")
      && r.value[i].quantity == Get(items[i], "quantity")
  {
    if items == [] then Some([])
    else
      match Prop(items[0], "item_id")
      case None => None
      case Some(itemId) =>
        match ItemRows(items[1..], orderId)
        case None => None
        case Some(rest) => Some([ItemRow(orderId, itemId, Get(items[0], "quantity"))] + rest)
  }

  /** `typeof val === "number" ? val : Number(val ?? 0)`. */
  function ToNumber(val: Value): (t: Total)
    ensures val.Num? ==> t == Number(val.n)
    ensures Nullish(val) ==> t == Number(0.0)
    ensures val.Bool? ==> t == Number(if val.b then 1.0 else 0.0)
    ensures t.NumberOf? <==> val.Str? || val.Arr? || val.Obj?
  {
    match val
    case Num(n) => Number(n)
    case Undefined => Number(0.0)
    case Null => Number(0.0)
    case Bool(b) => Number(if b then 1.0 else 0.0)
    case _ => NumberOf(val)
  }

  /**
   * The `otherOrdersTotal` of a totals reply: 0 unless the reply is a non-empty array,
   * otherwise the first row's `total`; a TypeError (`None`) when that row is null.
   */
  function OtherOrdersTotal(data: Value): (r: Option<Total>)
    ensures !IsNonEmptyArray(data) ==> r == Some(Number(0.0))
    ensures IsNonEmptyArray(data) ==> (r.None? <==> Nullish(data.elems[0]))
    ensures IsNonEmptyArray(data) && !Nullish(data.elems[0]) ==>
      r == Some(ToNumber(Get(data.elems[0], "total")))
  {
    if !IsNonEmptyArray(data) then Some(Number(0.0))
    else
      match Prop(data.elems[0], "total")
      case None => None
      case Some(val) => Some(ToNumber(val))
  }
}
