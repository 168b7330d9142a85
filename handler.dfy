/**
 * The `create-order` request handler. Its collaborators (the identity verifier, the
 * user-scoped and privileged store clients, the body parser) are replaced by the
 * replies they give; every call the handler makes to them is recorded, in order, in
 * a trace. `Pipeline` is the handler as a decision pipeline; `HandleRequest` follows
 * the `create-order` handler statement by statement and is proved to compute the same run.
 */
module CreateOrder {
  import opened Wrappers
  import opened Json
  import opened Env
  import opened Orders
  import opened OrderRules

  const OptionsMethod: string := "OPTIONS"
  const PostMethod: string := "POST"
  const TotalsRpc: string := "get_other_orders_total"

  /**
   * What the handler reads from the request: its HTTP method (`verb`), the `authorization` header
   * (`None` when absent) and the outcome of `req.json()` (`None` when it throws).
   */
  datatype Request = Request(verb: string, authorization: Option<string>, body: Option<Value>)

  /** `auth.getUser()`: whether it returned an error, and the user id it returned, if any. */
  datatype AuthReply = AuthReply(failed: bool, user: Option<string>)

  /** The `orders` insert with `.select(...).single()`: error flag and returned row. */
  datatype OrderReply = OrderReply(failed: bool, row: Option<OrderRecord>)

  /** The aggregate RPC: error flag and returned data. */
  datatype RpcReply = RpcReply(failed: bool, data: Value)

  /** The replies the collaborators give to the calls of one request. */
  datatype Replies = Replies(auth: AuthReply, order: OrderReply, itemsFailed: bool, totals: RpcReply)

  /** A store client: the URL, the key it was created with, and the bearer token it sends. */
  datatype Client = Client(url: string, key: string, bearer: Option<string>)

  /** A call to a collaborator, with the client it goes through and its arguments. */
  datatype Call =
    | GetUser(client: Client)
    | InsertOrder(client: Client, row: NewOrder)
    | InsertItems(client: Client, rows: seq<ItemRow>)
    | CallRpc(client: Client, name: string, excludeOrderId: string)

  /** A response body: the preflight text, an `{error}` object or the created order. */
  datatype Body = Text(text: string) | Error(failure: Failure) | Created(newOrder: OrderRecord, otherOrdersTotal: Total)

  /** The handler answers with a status and a body, or throws (a TypeError escapes it). */
  datatype Outcome = Reply(status: int, body: Body) | Threw

  /** One request's outcome and the calls it made. */
  datatype Run = Run(outcome: Outcome, calls: seq<Call>)

  /** The client that acts as the caller, so that row-level security applies. */
  function UserClient(cfg: Config, token: string): Client {
    Client(cfg.url, cfg.anonKey, Some(token))
  }

  /** The service-role client used only for the aggregate. */
  function AdminClient(cfg: Config): Client {
    Client(cfg.url, cfg.serviceRoleKey, None)
  }

  function Fail(f: Failure, calls: seq<Call>): Run {
    Run(Reply(Status(f), Error(f)), calls)
  }

  /** The position of each kind of call in the handler's fixed sequence. */
  function Stage(c: Call): nat {
    match c
    case GetUser(_) => 0
    case InsertOrder(_, _) => 1
    case InsertItems(_, _) => 2
    case CallRpc(_, _, _) => 3
  }

  /**
   * The handler as a pipeline of checks and calls, each failure ending the request.
   * Its calls are always a prefix of verify, order insert, items insert, aggregate;
   * an error answer carries its failure's status, and a 201 follows all four calls.
   */
  function Pipeline(req: Request, cfg: Config, w: Replies): (r: Run)
    ensures |r.calls| <= 4
    ensures forall i :: 0 <= i < |r.calls| ==> Stage(r.calls[i]) == i
    ensures r.outcome.Reply? && r.outcome.body.Error? ==> r.outcome.status == Status(r.outcome.body.failure)
    ensures r.outcome.Reply? && r.outcome.status == 201 ==> |r.calls| == 4
  {
    if req.verb == OptionsMethod then Run(Reply(200, Text("ok")), [])
    else if req.verb != PostMethod then Fail(MethodNotAllowed, [])
    else
      match SliceBearer(req.authorization)
      case None => Fail(MissingBearer, [])
      case Some(token) =>
        if token == "" then Fail(MissingBearer, [])
        else
          var user := UserClient(cfg, token);
          var verified := [GetUser(user)];
          if w.auth.failed || w.auth.user.None? then Fail(InvalidToken, verified)
          else
            match req.body
            case None => Fail(InvalidJson, verified)
            case Some(payload) =>
              match CheckPayload(payload)
              case Err(f) => Fail(f, verified)
              case Ok(draft) =>
                var row := NewOrder(w.auth.user.value, draft.recipientName, draft.shippingAddress);
                var ordered := verified + [InsertOrder(user, row)];
                if w.order.failed || w.order.row.None? then Fail(OrderInsertFailed, ordered)
                else
                  var newOrder := w.order.row.value;
                  match ItemRows(draft.items, newOrder.id)
                  case None => Run(Threw, ordered)
                  case Some(rows) =>
                    var itemized := ordered + [InsertItems(user, rows)];
                    if w.itemsFailed then Fail(ItemsInsertFailed, itemized)
                    else
                      var totaled := itemized + [CallRpc(AdminClient(cfg), TotalsRpc, newOrder.id)];
                      if w.totals.failed then Fail(TotalsFailed, totaled)
                      else
                        match OtherOrdersTotal(w.totals.data)
                        case None => Run(Threw, totaled)
                        case Some(total) => Run(Reply(201, Created(newOrder, total)), totaled)
  }

  /** The handler body, step by step: each awaited call is appended to `calls` before its reply is read. */
  method HandleRequest(req: Request, cfg: Config, w: Replies) returns (outcome: Outcome, calls: seq<Call>)
    ensures Run(outcome, calls) == Pipeline(req, cfg, w)
  {
    calls := [];
    if req.verb == OptionsMethod {
      outcome := Reply(200, Text("ok"));
      return;
    }
    if req.verb != PostMethod {
      outcome := Reply(405, Error(MethodNotAllowed));
      return;
    }

    var accessToken := SliceBearer(req.authorization);
    if accessToken.None? || accessToken.value == "" {
      outcome := Reply(401, Error(MissingBearer));
      return;
    }
    var userClient := UserClient(cfg, accessToken.value);

    calls := calls + [GetUser(userClient)];
    if w.auth.failed || w.auth.user.None? {
      outcome := Reply(401, Error(InvalidToken));
      return;
    }
    var authUid := w.auth.user.value;

    var payload: Value;
    match req.body {
      case None =>
        outcome := Reply(400, Error(InvalidJson));
        return;
      case Some(parsed) =>
        payload := parsed;
    }

    var recipientName := Get(payload, "recipient_name");
    var shippingAddress := Get(payload, "shipping_address");
    var items := Get(payload, "items");
    if !Truthy(recipientName) || !Truthy(shippingAddress) {
      outcome := Reply(400, Error(MissingFields));
      return;
    }
    if !items.Arr? || |items.elems| == 0 {
      outcome := Reply(400, Error(NoItems));
      return;
    }

    calls := calls + [InsertOrder(userClient, NewOrder(authUid, recipientName, shippingAddress))];
    if w.order.failed || w.order.row.None? {
      outcome := Reply(500, Error(OrderInsertFailed));
      return;
    }
    var newOrder := w.order.row.value;

    var itemsToInsert := ItemRows(items.elems, newOrder.id);
    if itemsToInsert.None? {
      outcome := Threw;
      return;
    }
    calls := calls + [InsertItems(userClient, itemsToInsert.value)];
    if w.itemsFailed {
      outcome := Reply(500, Error(ItemsInsertFailed));
      return;
    }

    var adminClient := AdminClient(cfg);
    calls := calls + [CallRpc(adminClient, TotalsRpc, newOrder.id)];
    if w.totals.failed {
      outcome := Reply(500, Error(TotalsFailed));
      return;
    }

    var otherOrdersTotal := Number(0.0);
    var totalsData := w.totals.data;
    if totalsData.Arr? && |totalsData.elems| > 0 {
      var first := totalsData.elems[0];
      if Nullish(first) {
        outcome := Threw;
        return;
      }
      otherOrdersTotal := ToNumber(Get(first, "total"));
    }

    outcome := Reply(201, Created(newOrder, otherOrdersTotal));
  }
}
