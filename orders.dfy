/** The rows the handler writes and reads, its failure taxonomy and the totals it reports. */
module Orders {
  import opened Json

  /** The `orders` row the handler inserts; `profileId` is the verified caller's id. */
  datatype NewOrder = NewOrder(profileId: string, recipientName: Value, shippingAddress: Value)

  /** The persisted `orders` row the store returns (`id, profile_id, ..., updated_at`). */
  datatype OrderRecord = OrderRecord(
    id: string,
    profileId: string,
    recipientName: Value,
    shippingAddress: Value,
    createdAt: string,
    updatedAt: string)

  /** One `order_items` row: the new order's id and the caller's item, passed through. */
  datatype ItemRow = ItemRow(orderId: string, itemId: Value, quantity: Value)

  /** The three body fields that passed validation; `items` is a non-empty array's elements. */
  datatype Draft = Draft(recipientName: Value, shippingAddress: Value, items: seq<Value>)

  /** Every early exit of the handler that answers with an `{error}` body. */
  datatype Failure =
    | MethodNotAllowed
    | MissingBearer
    | InvalidToken
    | InvalidJson
    | MissingFields
    | NoItems
    | OrderInsertFailed
    | ItemsInsertFailed
    | TotalsFailed

  /** The HTTP status each failure answers with. */
  function Status(f: Failure): int {
    match f
    case MethodNotAllowed => 405
    case MissingBearer => 401
    case InvalidToken => 401
    case InvalidJson => 400
    case MissingFields => 400
    case NoItems => 400
    case OrderInsertFailed => 500
    case ItemsInsertFailed => 500
    case TotalsFailed => 500
  }

  /** The `error` string each failure answers with. */
  function Message(f: Failure): string {
    match f
    case MethodNotAllowed => "Method not allowed, use POST"
    case MissingBearer => "Missing Authorization: Bearer <access_token>"
    case InvalidToken => "Invalid or expired token"
    case InvalidJson => "Invalid JSON body"
    case MissingFields => "Missing required fields: recipient_name, shipping_address"
    case NoItems => "Order must contain at least one item"
    case OrderInsertFailed => "Failed to insert order"
    case ItemsInsertFailed => "Failed to insert order items"
    case TotalsFailed => "Order created, but failed to calculate totals for other orders"
  }

  /**
   * The reported `otherOrdersTotal`: a number, or `NumberOf(v)`, JavaScript's `Number(v)`
   * of a string, array or object, whose numeric value this model does not compute.
   */
  datatype Total = Number(n: real) | NumberOf(v: Value)
}
