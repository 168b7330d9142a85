/**
 * What the create-order handler guarantees, stated over `CreateOrder.Pipeline` for
 * every request, configuration and set of collaborator replies.
 */
module CreateOrderProperties {
  import opened Wrappers
  import opened Json
  import opened Env
  import opened Orders
  import opened OrderRules
  import opened CreateOrder

  /** The headers the handler accepts: present, prefixed by `"Bearer "` (case-sensitive), token non-empty. */
  predicate WellFormedBearer(header: Option<string>) {
    header.Some? && StartsWith(header.value, BearerPrefix) && |header.value| > |BearerPrefix|
  }

  /** The access token of a well-formed header. */
  function TokenOf(header: Option<string>): string
    requires WellFormedBearer(header)
  {
    header.value[|BearerPrefix|..]
  }

  /** Identity verification succeeded and named a user. */
  predicate Verified(w: Replies) {
    !w.auth.failed && w.auth.user.Some?
  }

  /** The order insert succeeded and returned the persisted row. */
  predicate OrderPersisted(w: Replies) {
    !w.order.failed && w.order.row.Some?
  }

  /** A POST that passed authentication and validation: the order insert is the next call. */
  predicate ReachesOrderInsert(req: Request, w: Replies) {
    && req.verb == PostMethod && WellFormedBearer(req.authorization) && Verified(w)
    && req.body.Some? && CheckPayload(req.body.value).Ok?
  }

  /** The order was persisted and its item rows were built: the items insert is the next call. */
  predicate ReachesItemsInsert(req: Request, w: Replies) {
    && ReachesOrderInsert(req, w) && OrderPersisted(w)
    && ItemRows(CheckPayload(req.body.value).value.items, w.order.row.value.id).Some?
  }

  /** The handler takes a token exactly when the header is well formed, and the token is the rest of the header. */
  lemma AccessTokenExact(header: Option<string>)
    ensures WellFormedBearer(header) <==> (SliceBearer(header).Some? && SliceBearer(header).value != "")
    ensures WellFormedBearer(header) ==>
      SliceBearer(header) == Some(TokenOf(header)) && header.value == BearerPrefix + TokenOf(header)
  {
  }

  /** The three headers the handler refuses before verification, and the prefix's case sensitivity. */
  lemma MalformedBearers(rest: string)
    ensures !WellFormedBearer(None)
    ensures !WellFormedBearer(Some(BearerPrefix))
    ensures !WellFormedBearer(Some("bearer " + rest))
    ensures !WellFormedBearer(Some("Token " + rest))
    ensures WellFormedBearer(Some(BearerPrefix + rest)) <==> rest != ""
  {
  }

  /** A preflight request is answered 200 with no verification, parse or store call. */
  lemma PreflightShortCircuits(req: Request, cfg: Config, w: Replies)
    requires req.verb == OptionsMethod
    ensures Pipeline(req, cfg, w) == Run(Reply(200, Text("ok")), [])
  {
  }

  /** Any method but OPTIONS and POST is answered 405 with no call made. */
  lemma OtherMethodsRejected(req: Request, cfg: Config, w: Replies)
    requires req.verb != OptionsMethod && req.verb != PostMethod
    ensures Pipeline(req, cfg, w) == Run(Reply(405, Error(MethodNotAllowed)), [])
  {
  }

  /**
   * A POST is answered 401 "Missing Authorization" exactly when its header is not well
   * formed, and then nothing is called; otherwise the first call verifies the token as
   * the caller's client.
   */
  lemma BearerGate(req: Request, cfg: Config, w: Replies)
    requires req.verb == PostMethod
    ensures Pipeline(req, cfg, w).outcome == Reply(401, Error(MissingBearer)) <==> !WellFormedBearer(req.authorization)
    ensures !WellFormedBearer(req.authorization) ==> Pipeline(req, cfg, w).calls == []
    ensures WellFormedBearer(req.authorization) ==>
      && |Pipeline(req, cfg, w).calls| > 0
      && Pipeline(req, cfg, w).calls[0] == GetUser(UserClient(cfg, TokenOf(req.authorization)))
  {
  }

  /** A rejected or userless verification is answered 401 and nothing follows it. */
  lemma InvalidTokenStops(req: Request, cfg: Config, w: Replies)
    requires req.verb == PostMethod && WellFormedBearer(req.authorization)
    requires !Verified(w)
    ensures Pipeline(req, cfg, w) ==
      Run(Reply(401, Error(InvalidToken)), [GetUser(UserClient(cfg, TokenOf(req.authorization)))])
  {
  }

  /**
   * After verification the body is checked in order (parse, names, items); each
   * rejection is a 400 whose only call was the verification.
   */
  lemma BodyRejections(req: Request, cfg: Config, w: Replies)
    requires req.verb == PostMethod && WellFormedBearer(req.authorization) && Verified(w)
    ensures req.body.None? ==>
      Pipeline(req, cfg, w) == Run(Reply(400, Error(InvalidJson)), [GetUser(UserClient(cfg, TokenOf(req.authorization)))])
    ensures req.body.Some? && CheckPayload(req.body.value).Err? ==>
      Pipeline(req, cfg, w) ==
        Run(Reply(400, Error(CheckPayload(req.body.value).error)), [GetUser(UserClient(cfg, TokenOf(req.authorization)))])
  {
  }

  /** A 400 answer never follows a store write or the aggregate call. */
  lemma BadRequestWritesNothing(req: Request, cfg: Config, w: Replies)
    requires Pipeline(req, cfg, w).outcome.Reply? && Pipeline(req, cfg, w).outcome.status == 400
    ensures |Pipeline(req, cfg, w).calls| == 1 && Pipeline(req, cfg, w).calls[0].GetUser?
  {
  }

  /** Each call runs only after every earlier one succeeded; the aggregate excludes the new order's id. */
  lemma CallsFollowSuccess(req: Request, cfg: Config, w: Replies)
    ensures |Pipeline(req, cfg, w).calls| >= 2 ==> Verified(w) && req.body.Some?
    ensures |Pipeline(req, cfg, w).calls| >= 3 ==> OrderPersisted(w)
    ensures |Pipeline(req, cfg, w).calls| == 4 ==>
      !w.itemsFailed && Pipeline(req, cfg, w).calls[3] == CallRpc(AdminClient(cfg), TotalsRpc, w.order.row.value.id)
  {
  }

  /** The store writes go through the caller's client; the aggregate alone uses the service-role key. */
  lemma CallerScopedWrites(req: Request, cfg: Config, w: Replies)
    ensures forall c :: c in Pipeline(req, cfg, w).calls && !c.CallRpc? ==>
      WellFormedBearer(req.authorization) && c.client == UserClient(cfg, TokenOf(req.authorization))
    ensures forall c :: c in Pipeline(req, cfg, w).calls && c.CallRpc? ==> c.client == AdminClient(cfg)
  {
  }

  /** The inserted order is owned by the verified user, whatever the body says. */
  lemma OrderOwnedByCaller(req: Request, cfg: Config, w: Replies)
    ensures forall c :: c in Pipeline(req, cfg, w).calls && c.InsertOrder? ==>
      Verified(w) && c.row.profileId == w.auth.user.value
  {
  }

  /**
   * The body is read only through `recipient_name`, `shipping_address` and `items`:
   * changing any other field (a forged `profile_id`, say) changes nothing.
   */
  lemma OtherBodyFieldsIgnored(req: Request, cfg: Config, w: Replies, key: string, x: Value)
    requires req.body.Some? && req.body.value.Obj?
    requires key != "recipient_name" && key != "shipping_address" && key != "items"
    ensures Pipeline(req.(body := Some(Obj(req.body.value.fields[key := x]))), cfg, w) == Pipeline(req, cfg, w)
  {
  }

  /** The item rows inserted are the payload's items, one for one, stamped with the new order's id. */
  lemma ItemsInsertMirrorsPayload(req: Request, cfg: Config, w: Replies)
    ensures forall c :: c in Pipeline(req, cfg, w).calls && c.InsertItems? ==>
      && req.body.Some? && OrderPersisted(w)
      && Get(req.body.value, "items").Arr?
      && |c.rows| == |Get(req.body.value, "items").elems| > 0
      && forall j :: 0 <= j < |c.rows| ==>
           c.rows[j] == ItemRow(w.order.row.value.id,
                                Get(Get(req.body.value, "items").elems[j], "item_id"),
                                Get(Get(req.body.value, "items").elems[j], "quantity"))
  {
  }

  /** A failed order insert is a 500 "Failed to insert order", with that insert as the last call. */
  lemma OrderInsertFailureAnswers500(req: Request, cfg: Config, w: Replies)
    ensures Pipeline(req, cfg, w).outcome == Reply(500, Error(OrderInsertFailed)) <==>
      ReachesOrderInsert(req, w) && !OrderPersisted(w)
    ensures Pipeline(req, cfg, w).outcome == Reply(500, Error(OrderInsertFailed)) ==>
      |Pipeline(req, cfg, w).calls| == 2 && Pipeline(req, cfg, w).calls[1].InsertOrder?
  {
  }

  /**
   * A failed items insert is answered 500 "Failed to insert order items", and that
   * answer comes only after a persisted order, which no later call undoes.
   */
  lemma ItemsFailureKeepsOrder(req: Request, cfg: Config, w: Replies)
    ensures Pipeline(req, cfg, w).outcome == Reply(500, Error(ItemsInsertFailed)) <==>
      ReachesItemsInsert(req, w) && w.itemsFailed
    ensures Pipeline(req, cfg, w).outcome == Reply(500, Error(ItemsInsertFailed)) ==>
      && OrderPersisted(w)
      && |Pipeline(req, cfg, w).calls| == 3
      && Pipeline(req, cfg, w).calls[1].InsertOrder? && Pipeline(req, cfg, w).calls[2].InsertItems?
  {
  }

  /**
   * A failed aggregate is answered 500 "Order created, but ...", and that answer comes
   * only after both writes succeeded, with the aggregate as the last call.
   */
  lemma TotalsFailureAfterWrites(req: Request, cfg: Config, w: Replies)
    ensures Pipeline(req, cfg, w).outcome == Reply(500, Error(TotalsFailed)) <==>
      ReachesItemsInsert(req, w) && !w.itemsFailed && w.totals.failed
    ensures Pipeline(req, cfg, w).outcome == Reply(500, Error(TotalsFailed)) ==>
      OrderPersisted(w) && |Pipeline(req, cfg, w).calls| == 4
  {
  }

  /**
   * A 201 is answered exactly when every step succeeds, and its body is the persisted
   * order with the normalised total of the other orders.
   */
  lemma CreatedExactlyOnSuccess(req: Request, cfg: Config, w: Replies)
    ensures Pipeline(req, cfg, w).outcome.Reply? && Pipeline(req, cfg, w).outcome.status == 201 <==>
      && ReachesItemsInsert(req, w)
      && !w.itemsFailed && !w.totals.failed
      && OtherOrdersTotal(w.totals.data).Some?
    ensures Pipeline(req, cfg, w).outcome.Reply? && Pipeline(req, cfg, w).outcome.status == 201 ==>
      Pipeline(req, cfg, w).outcome.body == Created(w.order.row.value, OtherOrdersTotal(w.totals.data).value)
  {
  }

  /**
   * A null (or undefined) element in `items` passes validation, the order is written, and the
   * handler then throws before inserting any item: the order is left without items.
   */
  lemma NullItemOrphansOrder(req: Request, cfg: Config, w: Replies, k: nat)
    requires ReachesOrderInsert(req, w) && OrderPersisted(w)
    requires k < |CheckPayload(req.body.value).value.items| && Nullish(CheckPayload(req.body.value).value.items[k])
    ensures Pipeline(req, cfg, w).outcome == Threw
    ensures |Pipeline(req, cfg, w).calls| == 2 && Pipeline(req, cfg, w).calls[1].InsertOrder?
  {
  }

  /** Every answer the handler gives has one of its six status codes. */
  lemma StatusCodes(req: Request, cfg: Config, w: Replies)
    ensures Pipeline(req, cfg, w).outcome.Reply? ==>
      Pipeline(req, cfg, w).outcome.status in {200, 201, 400, 401, 405, 500}
  {
  }

  /** The end-to-end case: user U1 orders two of item X; the aggregate of the other orders is 100. */
  lemma EndToEndScenario(cfg: Config, o1: OrderRecord)
    requires o1.id == "O1" && o1.profileId == "U1"
    ensures
      var item := Obj(map["item_id" := Str("X"), "quantity" := Num(2.0)]);
      var body := Obj(map["recipient_name" := Str("A"), "shipping_address" := Str("B"), "items" := Arr([item])]);
      var req := Request(PostMethod, Some("Bearer tok"), Some(body));
      var w := Replies(AuthReply(false, Some("U1")), OrderReply(false, Some(o1)), false,
                       RpcReply(false, Arr([Obj(map["total" := Num(100.0)])])));
      var user := UserClient(cfg, "tok");
      Pipeline(req, cfg, w) ==
        Run(Reply(201, Created(o1, Number(100.0))),
            [ GetUser(user),
              InsertOrder(user, NewOrder("U1", Str("A"), Str("B"))),
              InsertItems(user, [ItemRow("O1", Str("X"), Num(2.0))]),
              CallRpc(AdminClient(cfg), TotalsRpc, "O1") ])
  {
    var item := Obj(map["item_id" := Str("X"), "quantity" := Num(2.0)]);
    var body := Obj(map["recipient_name" := Str("A"), "shipping_address" := Str("B"), "items" := Arr([item])]);
    SliceBearerOfPrefixed("tok");
    assert BearerPrefix + "tok" == "Bearer tok";
    assert CheckPayload(body) == Ok(Draft(Str("A"), Str("B"), [item]));
    var rows := ItemRows([item], "O1");
    assert !Nullish([item][0]);
    assert rows.Some? && |rows.value| == 1 && rows.value[0] == ItemRow("O1", Str("X"), Num(2.0));
    assert rows.value == [ItemRow("O1", Str("X"), Num(2.0))];
    assert OtherOrdersTotal(Arr([Obj(map["total" := Num(100.0)])])) == Some(Number(100.0));
  }
}
