/** The payment routes: create-order, verify-and-create-pass,
    payment-failed, the gateway webhook, cancel, and the two reads.

    Each handler is a specification function from the database state, the
    request and what the outside world answered (the gateway's HTTP reply,
    the identity provider's profile, freshly generated ids, whether the
    atomic `$transaction` committed) to the new state and the reply, and a
    method on the shared `Database` that performs it step by step. */
module PaymentRoutes {
  import opened Wrappers
  import opened Strings
  import opened Seqs
  import opened Store
  import opened UserRoutes
  import KonfHub

  /** The message `ensureUserExists` throws in this file. */
  const SyncFailed: string := "Failed to sync user from Clerk"

  /** The 500 reply of a handler's `catch`: `error.message || fallback`. */
  function ErrorReply(message: string, fallback: string): (r: Reply)
    requires fallback != ""
    ensures r.code == 500 && r.message != ""
    ensures message != "" ==> r.message == message
  {
    Reply(500, if message != "" then message else fallback)
  }

  /** `metadata.passType` where it is a string. */
  function MetaPassType(m: Meta): Option<string> {
    if "passType" in m && m["passType"].Str? then Some(m["passType"].s) else None
  }

  /** `metadata.hasWorkshopAccess || false` where the value is a boolean. */
  predicate MetaWorkshop(m: Meta) {
    "hasWorkshopAccess" in m && m["hasWorkshopAccess"] == Flag(true)
  }

  /** The outcome of a handler: the new state and the reply. */
  datatype Outcome = Outcome(state: State, reply: Reply)

  // ---------------------------------------------------------------------
  // POST /create-order

  datatype OrderRequest = OrderRequest(clerkUserId: Option<string>, passType: Option<string>, price: Option<int>)

  /** The order the handler sends to the gateway. */
  datatype GatewayOrder = GatewayOrder(
    quantity: int,
    customerName: string,
    customerEmail: string,
    customerPhone: Option<string>,
    clerkUserId: string,
    passType: string,
    invoiceNumber: string,
    transactionNumber: string)

  /** The state, the reply, the order sent to the gateway (if any) and the
      transaction created (if any). */
  datatype CreateOrderOutcome = CreateOrderOutcome(state: State, reply: Reply, sent: Option<GatewayOrder>, created: Option<RowId>)

  /** The metadata of a new pending transaction. */
  function OrderMeta(passType: string, checkoutUrl: Option<string>): (m: Meta)
    ensures MetaPassType(m) == Some(passType)
  {
    var m := map["passType" := Str(passType), "orderCreatedAt" := Time];
    if checkoutUrl.Some? then m["checkoutUrl" := Str(checkoutUrl.value)] else m
  }

  /** The request is refused before any lookup. */
  predicate InvalidOrderRequest(req: OrderRequest) {
    !Truthy(req.clerkUserId) || !Truthy(req.passType) || !TruthyNum(req.price) || req.price.value <= 0
  }

  /** `POST /create-order`. `profile` and `newUserId` feed
      `ensureUserExists`; `invoiceNumber` and `transactionNumber` are the
      generated identifiers; `gateway` is the gateway's reply to the order;
      `txId` is the id of the created transaction row. */
  ghost function CreateOrder(s: State, req: OrderRequest, profile: Option<ClerkProfile>, newUserId: RowId,
                             invoiceNumber: string, transactionNumber: string, gateway: KonfHub.HttpReply, txId: RowId)
    : (r: CreateOrderOutcome)
    requires Consistent(s) && newUserId !in s.users && txId !in s.transactions
    ensures Consistent(r.state)
    ensures r.state.passes == s.passes
    ensures r.created.Some? <==> r.reply.code == 201
    ensures r.created.None? ==> r.state.transactions == s.transactions && r.state.txOrder == s.txOrder
    ensures r.reply.code == 400 ==> r.sent.None?
  {
    if !Truthy(req.clerkUserId) || !Truthy(req.passType) || !TruthyNum(req.price) then
      CreateOrderOutcome(s, Reply(400, "clerkUserId, passType, and price are required"), None, None)
    else if req.price.value <= 0 then
      CreateOrderOutcome(s, Reply(400, "Invalid price amount"), None, None)
    else
      var clerkUserId, passType, price := req.clerkUserId.value, req.passType.value, req.price.value;
      var (users', found) := EnsureUser(s.users, clerkUserId, profile, newUserId);
      var s1 := s.(users := users');
      match found
      case None => CreateOrderOutcome(s1, Reply(500, SyncFailed), None, None)
      case Some(uid) => OrderFor(s1, uid, clerkUserId, passType, price, invoiceNumber, transactionNumber, gateway, txId)
  }

  /** Create-order once the buyer `uid` is known. */
  ghost function OrderFor(s: State, uid: RowId, clerkUserId: string, passType: string, price: int,
                          invoiceNumber: string, transactionNumber: string, gateway: KonfHub.HttpReply, txId: RowId)
    : (r: CreateOrderOutcome)
    requires Consistent(s) && txId !in s.transactions && uid in s.users
    ensures Consistent(r.state)
    ensures r.state.passes == s.passes && r.state.users == s.users
    ensures r.created.Some? <==> r.reply.code == 201
    ensures r.created.None? ==> r.state == s
    ensures r.reply.code == 400 ==> r.sent.None?
  {
    if HasPass(s.passes, uid) then
      CreateOrderOutcome(s, Reply(400, "You already have a pass. Only one pass per user is allowed."), None, None)
    else
      var user := s.users[uid];
      var sent := GatewayOrder(1, if Truthy(user.fullName) then user.fullName.value else "Guest",
                               user.email, Or(user.phone, None), clerkUserId, passType,
                               invoiceNumber, transactionNumber);
      match KonfHub.CreateOrder(1, gateway)
      case Err(e) => CreateOrderOutcome(s, ErrorReply(e, "Failed to create order"), Some(sent), None)
      case Ok(order) =>
        var tx := Transaction(uid, invoiceNumber, transactionNumber, order.orderId, order.ticketId, None,
                              price, "INR", Pending, "konfhub", None, OrderMeta(passType, order.checkoutUrl));
        CreateOrderOutcome(s.(transactions := s.transactions[txId := tx], txOrder := s.txOrder + [txId]),
                           Reply(201, "Order created successfully"), Some(sent), Some(txId))
  }

  method CreateOrderHandler(db: Database, req: OrderRequest, profile: Option<ClerkProfile>, newUserId: RowId,
                            invoiceNumber: string, transactionNumber: string, gateway: KonfHub.HttpReply, txId: RowId)
    returns (reply: Reply, sent: Option<GatewayOrder>, created: Option<RowId>)
    requires db.Valid() && newUserId !in db.users && txId !in db.transactions
    modifies db
    ensures db.Valid()
    ensures CreateOrderOutcome(db.Snapshot(), reply, sent, created) ==
      CreateOrder(old(db.Snapshot()), req, profile, newUserId, invoiceNumber, transactionNumber, gateway, txId)
  {
    sent, created := None, None;
    if !Truthy(req.clerkUserId) || !Truthy(req.passType) || !TruthyNum(req.price) {
      reply := Reply(400, "clerkUserId, passType, and price are required");
      return;
    }
    if req.price.value <= 0 {
      reply := Reply(400, "Invalid price amount");
      return;
    }
    var clerkUserId, passType, price := req.clerkUserId.value, req.passType.value, req.price.value;
    var found := EnsureUserExists(db, clerkUserId, profile, newUserId);
    if found.None? {
      reply := Reply(500, SyncFailed);
      return;
    }
    CreateOrderUnfolds(old(db.Snapshot()), req, profile, newUserId, invoiceNumber, transactionNumber, gateway, txId);
    reply, sent, created := PlaceOrder(db, found.value, clerkUserId, passType, price, invoiceNumber, transactionNumber, gateway, txId);
  }

  /** `OrderFor` on the shared database. */
  method PlaceOrder(db: Database, uid: RowId, clerkUserId: string, passType: string, price: int,
                    invoiceNumber: string, transactionNumber: string, gateway: KonfHub.HttpReply, txId: RowId)
    returns (reply: Reply, sent: Option<GatewayOrder>, created: Option<RowId>)
    requires db.Valid() && txId !in db.transactions && uid in db.users
    modifies db`transactions, db`txOrder
    ensures db.Valid()
    ensures CreateOrderOutcome(db.Snapshot(), reply, sent, created) ==
      OrderFor(old(db.Snapshot()), uid, clerkUserId, passType, price, invoiceNumber, transactionNumber, gateway, txId)
  {
    sent, created := None, None;
    var existingPass := db.UserHasPass(uid);
    if existingPass {
      reply := Reply(400, "You already have a pass. Only one pass per user is allowed.");
      return;
    }
    var user := db.users[uid];
    sent := Some(GatewayOrder(1, if Truthy(user.fullName) then user.fullName.value else "Guest",
                              user.email, Or(user.phone, None), clerkUserId, passType,
                              invoiceNumber, transactionNumber));
    var order := KonfHub.CreateOrder(1, gateway);
    if order.Err? {
      reply := ErrorReply(order.error, "Failed to create order");
      return;
    }
    var tx := Transaction(uid, invoiceNumber, transactionNumber, order.value.orderId, order.value.ticketId, None,
                          price, "INR", Pending, "konfhub", None, OrderMeta(passType, order.value.checkoutUrl));
    db.transactions := db.transactions[txId := tx];
    db.txOrder := db.txOrder + [txId];
    reply, created := Reply(201, "Order created successfully"), Some(txId);
  }

  /** A request without an account id, a pass type or a positive price is
      refused with 400 before anything is looked up: nothing changes and
      no order reaches the gateway. */
  lemma CreateOrderRejectsInvalid(s: State, req: OrderRequest, profile: Option<ClerkProfile>, newUserId: RowId,
                                  invoiceNumber: string, transactionNumber: string, gateway: KonfHub.HttpReply, txId: RowId)
    requires Consistent(s) && newUserId !in s.users && txId !in s.transactions
    requires InvalidOrderRequest(req)
    ensures var r := CreateOrder(s, req, profile, newUserId, invoiceNumber, transactionNumber, gateway, txId);
      r.state == s && r.reply.code == 400 && r.sent.None? && r.created.None?
  {
  }

  /** One pass per user: when the buyer already owns a pass the reply is
      400, no order reaches the gateway and the pass and transaction tables
      are unchanged (the user table holds only what `ensureUserExists`
      did); a buyer already linked to the account sees no change at all. */
  lemma CreateOrderOnePassGuard(s: State, req: OrderRequest, profile: Option<ClerkProfile>, newUserId: RowId,
                                invoiceNumber: string, transactionNumber: string, gateway: KonfHub.HttpReply, txId: RowId)
    requires Consistent(s) && newUserId !in s.users && txId !in s.transactions
    requires !InvalidOrderRequest(req)
    requires var e := EnsureUser(s.users, req.clerkUserId.value, profile, newUserId);
      e.1.Some? && HasPass(s.passes, e.1.value)
    ensures var r := CreateOrder(s, req, profile, newUserId, invoiceNumber, transactionNumber, gateway, txId);
      && r.reply == Reply(400, "You already have a pass. Only one pass per user is allowed.")
      && r.sent.None? && r.created.None?
      && r.state == s.(users := EnsureUser(s.users, req.clerkUserId.value, profile, newUserId).0)
  {
  }

  /** The same guard for a buyer already linked to the account: the whole
      state is unchanged. */
  lemma CreateOrderOwnerUnchanged(s: State, req: OrderRequest, profile: Option<ClerkProfile>, newUserId: RowId,
                                  invoiceNumber: string, transactionNumber: string, gateway: KonfHub.HttpReply, txId: RowId,
                                  uid: RowId)
    requires Consistent(s) && newUserId !in s.users && txId !in s.transactions
    requires !InvalidOrderRequest(req)
    requires uid in s.users && s.users[uid].clerkUserId == req.clerkUserId && HasPass(s.passes, uid)
    ensures var r := CreateOrder(s, req, profile, newUserId, invoiceNumber, transactionNumber, gateway, txId);
      r.state == s && r.reply.code == 400 && r.sent.None?
  {
    EnsureUserExisting(s.users, req.clerkUserId.value, profile, newUserId, uid);
  }

  /** Past validation, create-order is `ensureUserExists` followed by
      `OrderFor` on the buyer it returned. */
  lemma CreateOrderUnfolds(s: State, req: OrderRequest, profile: Option<ClerkProfile>, newUserId: RowId,
                           invoiceNumber: string, transactionNumber: string, gateway: KonfHub.HttpReply, txId: RowId)
    requires Consistent(s) && newUserId !in s.users && txId !in s.transactions
    requires !InvalidOrderRequest(req)
    ensures var e := EnsureUser(s.users, req.clerkUserId.value, profile, newUserId);
      e.1.Some? ==>
        (CreateOrder(s, req, profile, newUserId, invoiceNumber, transactionNumber, gateway, txId) ==
         OrderFor(s.(users := e.0), e.1.value, req.clerkUserId.value, req.passType.value, req.price.value,
                  invoiceNumber, transactionNumber, gateway, txId))
  {
  }

  /** A successful order for a known buyer adds exactly one transaction:
      pending, for the price in INR, with the gateway's order id and the
      pass type in its metadata, owned by the buyer, and newest. */
  lemma OrderForAddsPending(s: State, uid: RowId, clerkUserId: string, passType: string, price: int,
                            invoiceNumber: string, transactionNumber: string, gateway: KonfHub.HttpReply, txId: RowId)
    requires Consistent(s) && txId !in s.transactions && uid in s.users
    requires OrderFor(s, uid, clerkUserId, passType, price, invoiceNumber, transactionNumber, gateway, txId).reply.code == 201
    ensures var r := OrderFor(s, uid, clerkUserId, passType, price, invoiceNumber, transactionNumber, gateway, txId);
      && r.created == Some(txId)
      && gateway.Success? && !HasPass(s.passes, uid)
      && r.state.transactions.Keys == s.transactions.Keys + {txId}
      && (forall id :: id in s.transactions ==> r.state.transactions[id] == s.transactions[id])
      && r.state.txOrder == s.txOrder + [txId]
      && txId in r.state.transactions
      && var t := r.state.transactions[txId];
      && t.status == Pending && t.amount == price && t.currency == "INR"
      && t.orderId == KonfHub.CreateOrder(1, gateway).value.orderId
      && MetaPassType(t.metadata) == Some(passType)
      && t.passRef.None? && t.userId == uid
  {
  }

  /** A successful create-order adds exactly one transaction and no pass: it
      is pending, for the requested price in INR, carries the gateway's
      order id and the pass type in its metadata, belongs to the buyer
      linked to the account, and is the newest row. */
  lemma CreateOrderAddsPending(s: State, req: OrderRequest, profile: Option<ClerkProfile>, newUserId: RowId,
                               invoiceNumber: string, transactionNumber: string, gateway: KonfHub.HttpReply, txId: RowId)
    requires Consistent(s) && newUserId !in s.users && txId !in s.transactions
    requires CreateOrder(s, req, profile, newUserId, invoiceNumber, transactionNumber, gateway, txId).reply.code == 201
    ensures var r := CreateOrder(s, req, profile, newUserId, invoiceNumber, transactionNumber, gateway, txId);
      && r.created == Some(txId)
      && r.state.passes == s.passes
      && r.state.transactions.Keys == s.transactions.Keys + {txId}
      && (forall id :: id in s.transactions ==> r.state.transactions[id] == s.transactions[id])
      && r.state.txOrder == s.txOrder + [txId]
      && txId in r.state.transactions
      && var t := r.state.transactions[txId];
      && t.status == Pending && t.amount == req.price.value && t.currency == "INR"
      && KonfHub.CreateOrder(1, gateway).Ok?
      && t.orderId == KonfHub.CreateOrder(1, gateway).value.orderId
      && MetaPassType(t.metadata) == req.passType
      && t.passRef.None?
      && t.userId in r.state.users && r.state.users[t.userId].clerkUserId == req.clerkUserId
  {
    var e := EnsureUser(s.users, req.clerkUserId.value, profile, newUserId);
    CreateOrderUnfolds(s, req, profile, newUserId, invoiceNumber, transactionNumber, gateway, txId);
    OrderForAddsPending(s.(users := e.0), e.1.value, req.clerkUserId.value, req.passType.value, req.price.value,
                        invoiceNumber, transactionNumber, gateway, txId);
  }

  // ---------------------------------------------------------------------
  // POST /verify-and-create-pass

  datatype VerifyRequest = VerifyRequest(orderId: Option<string>, ticketId: Option<string>, paymentId: Option<string>)

  /** The metadata written over a transaction whose payment did not
      complete. */
  function FailedMeta(status: Option<string>): Meta {
    var m := map["error" := Str("Payment not completed"), "failedAt" := Time];
    if status.Some? then m["konfhubStatus" := Str(status.value)] else m
  }

  /** The metadata written over a transaction whose buyer already owns a
      pass. */
  const RefundMeta: Meta :=
    map["error" := Str("User already has a pass"), "needsRefund" := Flag(true),
        "refundReason" := Str("Duplicate purchase attempt")]

  /** `updateMany` of verify's failure branch: every transaction with the
      order id becomes failed, whatever its status, and carries the failure
      metadata. */
  function FailOrderWith(transactions: map<RowId, Transaction>, orderId: string, status: Option<string>): (r: map<RowId, Transaction>)
    ensures r.Keys == transactions.Keys
  {
    map k | k in transactions ::
      if transactions[k].orderId == Some(orderId)
      then transactions[k].(status := Failed, metadata := FailedMeta(status))
      else transactions[k]
  }

  /** The pass a completed payment creates. */
  function NewPass(t: Transaction, passCode: string, workshop: bool): Pass {
    Pass(t.userId, MetaPassType(t.metadata), passCode, t.amount, Active, workshop)
  }

  /** `POST /verify-and-create-pass`. `gateway` is the gateway's reply to
      `getOrder`; `passRowId` and `passCode` are the new pass's row id and
      generated pass id; `commitOk` says whether the atomic step committed. */
  ghost function Verify(s: State, req: VerifyRequest, gateway: KonfHub.HttpReply, passRowId: RowId, passCode: string, commitOk: bool)
    : (r: Outcome)
    requires Consistent(s) && passRowId !in s.passes
    ensures Consistent(r.state)
    ensures r.state.users == s.users && r.state.txOrder == s.txOrder
    ensures r.state.transactions.Keys == s.transactions.Keys
    ensures r.state.passes.Keys <= s.passes.Keys + {passRowId}
    ensures forall p :: p in s.passes ==> p in r.state.passes && r.state.passes[p] == s.passes[p]
    ensures passRowId in r.state.passes ==> !HasPass(s.passes, r.state.passes[passRowId].userId)
  {
    if !Truthy(req.orderId) then Outcome(s, Reply(400, "Order ID is required"))
    else
      var orderId := req.orderId.value;
      match KonfHub.GetOrder(gateway)
      case Err(e) => Outcome(s, ErrorReply(e, "Failed to verify payment"))
      case Ok(order) =>
        if order.status != Some("completed") then
          Outcome(s.(transactions := FailOrderWith(s.transactions, orderId, order.status)),
                  Reply(400, "Payment verification failed - payment not completed"))
        else VerifyCompleted(s, req, passRowId, passCode, commitOk)
  }

  /** Verify once the gateway reports the payment completed: the order's
      earliest transaction is looked up. */
  ghost function VerifyCompleted(s: State, req: VerifyRequest, passRowId: RowId, passCode: string, commitOk: bool)
    : (r: Outcome)
    requires Consistent(s) && passRowId !in s.passes
    ensures Consistent(r.state)
    ensures r.state.users == s.users && r.state.txOrder == s.txOrder
    ensures r.state.transactions.Keys == s.transactions.Keys
    ensures r.state.passes.Keys <= s.passes.Keys + {passRowId}
    ensures forall p :: p in s.passes ==> p in r.state.passes && r.state.passes[p] == s.passes[p]
    ensures passRowId in r.state.passes ==> !HasPass(s.passes, r.state.passes[passRowId].userId)
  {
    match FirstTx(s.transactions, s.txOrder, req.orderId)
    case None => Outcome(s, Reply(404, "Transaction not found"))
    case Some(id) => VerifyFound(s, id, req, passRowId, passCode, commitOk)
  }

  /** Verify once the order's transaction `id` is found and the gateway
      reports the payment completed. */
  ghost function VerifyFound(s: State, id: RowId, req: VerifyRequest, passRowId: RowId, passCode: string, commitOk: bool)
    : (r: Outcome)
    requires Consistent(s) && passRowId !in s.passes && id in s.transactions
    ensures Consistent(r.state)
    ensures r.state.users == s.users && r.state.txOrder == s.txOrder
    ensures r.state.transactions.Keys == s.transactions.Keys
    ensures r.state.passes.Keys <= s.passes.Keys + {passRowId}
    ensures forall p :: p in s.passes ==> p in r.state.passes && r.state.passes[p] == s.passes[p]
    ensures passRowId in r.state.passes ==> !HasPass(s.passes, r.state.passes[passRowId].userId)
  {
    var t := s.transactions[id];
    if t.status == Completed then
      Outcome(s, Reply(400, "This payment has already been processed"))
    else if HasPass(s.passes, t.userId) then
      TxUpdateConsistent(s, id, t.(status := RefundPending, metadata := RefundMeta));
      Outcome(s.(transactions := s.transactions[id := t.(status := RefundPending, metadata := RefundMeta)]),
              Reply(400, "You already have a pass. This payment will be refunded."))
    else if !commitOk then
      Outcome(s, Reply(500, DbErrorMessage))
    else
      PassCreated(s, id, req, passRowId, passCode)
  }

  /** The transaction once its payment is verified: completed, linked to
      the new pass, with the request's ticket and payment ids recorded. */
  function CompletedTx(t: Transaction, req: VerifyRequest, passRowId: RowId, passCode: string): Transaction {
    t.(passRef := Some(passRowId), ticketId := Or(req.ticketId, t.ticketId),
       paymentId := Keep(req.paymentId, t.paymentId), status := Completed,
       metadata := t.metadata["completedAt" := Time]["passId" := Str(passCode)])
  }

  /** The atomic step of verify: the pass is created and the transaction
      completed together. */
  ghost function PassCreated(s: State, id: RowId, req: VerifyRequest, passRowId: RowId, passCode: string)
    : (r: Outcome)
    requires Consistent(s) && passRowId !in s.passes && id in s.transactions
    ensures Consistent(r.state)
    ensures r.state.users == s.users && r.state.txOrder == s.txOrder
    ensures r.state.transactions.Keys == s.transactions.Keys
    ensures r.state.passes.Keys == s.passes.Keys + {passRowId}
    ensures forall p :: p in s.passes ==> r.state.passes[p] == s.passes[p]
    ensures r.state.passes[passRowId].userId == s.transactions[id].userId
  {
    var t := s.transactions[id];
    TxUpdateConsistent(s, id, CompletedTx(t, req, passRowId, passCode));
    Outcome(s.(passes := s.passes[passRowId := NewPass(t, passCode, false)],
               transactions := s.transactions[id := CompletedTx(t, req, passRowId, passCode)]),
            Reply(201, "Payment verified and pass created successfully"))
  }

  method VerifyHandler(db: Database, req: VerifyRequest, gateway: KonfHub.HttpReply, passRowId: RowId, passCode: string, commitOk: bool)
    returns (reply: Reply)
    requires db.Valid() && passRowId !in db.passes
    modifies db
    ensures db.Valid()
    ensures Outcome(db.Snapshot(), reply) == Verify(old(db.Snapshot()), req, gateway, passRowId, passCode, commitOk)
  {
    if !Truthy(req.orderId) {
      return Reply(400, "Order ID is required");
    }
    var orderId := req.orderId.value;
    var order := KonfHub.GetOrder(gateway);
    if order.Err? {
      return ErrorReply(order.error, "Failed to verify payment");
    }
    if order.value.status != Some("completed") {
      db.transactions := FailOrderWith(db.transactions, orderId, order.value.status);
      return Reply(400, "Payment verification failed - payment not completed");
    }
    var found := FirstTx(db.transactions, db.txOrder, Some(orderId));
    if found.None? {
      return Reply(404, "Transaction not found");
    }
    var id := found.value;
    var t := db.transactions[id];
    if t.status == Completed {
      return Reply(400, "This payment has already been processed");
    }
    var existingPass := db.UserHasPass(t.userId);
    if existingPass {
      db.transactions := db.transactions[id := t.(status := RefundPending, metadata := RefundMeta)];
      return Reply(400, "You already have a pass. This payment will be refunded.");
    }
    if !commitOk {
      return Reply(500, DbErrorMessage);
    }
    // The pass and the completed transaction are written in one step.
    db.passes := db.passes[passRowId := NewPass(t, passCode, false)];
    db.transactions := db.transactions[id := CompletedTx(t, req, passRowId, passCode)];
    reply := Reply(201, "Payment verified and pass created successfully");
  }

  /** A gateway status other than `completed` marks every transaction with
      the order id failed (whatever its status was), leaves every other
      transaction as it was, and creates no pass. */
  lemma VerifyNotCompletedFailsAll(s: State, req: VerifyRequest, gateway: KonfHub.HttpReply, passRowId: RowId, passCode: string, commitOk: bool)
    requires Consistent(s) && passRowId !in s.passes
    requires Truthy(req.orderId) && gateway.Success? && gateway.body.status != Some("completed")
    ensures var r := Verify(s, req, gateway, passRowId, passCode, commitOk);
      && r.reply.code == 400
      && r.state.passes == s.passes
      && (forall id :: id in s.transactions ==>
            if s.transactions[id].orderId == req.orderId
            then r.state.transactions[id].status == Failed
            else r.state.transactions[id] == s.transactions[id])
  {
  }

  /** With a completed payment but no transaction for the order the reply
      is 404 and nothing changes. */
  lemma VerifyUnknownOrder(s: State, req: VerifyRequest, gateway: KonfHub.HttpReply, passRowId: RowId, passCode: string, commitOk: bool)
    requires Consistent(s) && passRowId !in s.passes
    requires Truthy(req.orderId) && gateway.Success? && gateway.body.status == Some("completed")
    requires forall id :: id in s.transactions ==> s.transactions[id].orderId != req.orderId
    ensures Verify(s, req, gateway, passRowId, passCode, commitOk) == Outcome(s, Reply(404, "Transaction not found"))
  {
    FirstTxNone(s, req.orderId);
  }

  /** The transaction the handlers act on for an order: the earliest one
      carrying its id. */
  function OrderTx(s: State, orderId: Option<string>): Option<RowId> {
    FirstTx(s.transactions, s.txOrder, orderId)
  }

  /** An order whose transaction is already completed is answered with 400
      "already processed" and nothing changes. */
  lemma VerifyAlreadyProcessed(s: State, req: VerifyRequest, gateway: KonfHub.HttpReply, passRowId: RowId, passCode: string, commitOk: bool)
    requires Consistent(s) && passRowId !in s.passes
    requires Truthy(req.orderId) && gateway.Success? && gateway.body.status == Some("completed")
    requires OrderTx(s, req.orderId).Some? && s.transactions[OrderTx(s, req.orderId).value].status == Completed
    ensures Verify(s, req, gateway, passRowId, passCode, commitOk) ==
      Outcome(s, Reply(400, "This payment has already been processed"))
  {
  }

  /** A buyer who already owns a pass gets no second one from verify: the
      transaction becomes `refund_pending` with `needsRefund` set, and the
      pass table is unchanged. */
  lemma VerifyRefundPending(s: State, req: VerifyRequest, gateway: KonfHub.HttpReply, passRowId: RowId, passCode: string, commitOk: bool)
    requires Consistent(s) && passRowId !in s.passes
    requires Truthy(req.orderId) && gateway.Success? && gateway.body.status == Some("completed")
    requires OrderTx(s, req.orderId).Some?
    requires var t := s.transactions[OrderTx(s, req.orderId).value];
      t.status != Completed && HasPass(s.passes, t.userId)
    ensures var r := Verify(s, req, gateway, passRowId, passCode, commitOk);
      var id := OrderTx(s, req.orderId).value;
      && r.reply.code == 400
      && r.state.passes == s.passes
      && r.state.transactions[id].status == RefundPending
      && r.state.transactions[id].metadata["needsRefund"] == Flag(true)
      && (forall other :: other in s.transactions && other != id ==> r.state.transactions[other] == s.transactions[other])
  {
  }

  /** The atomic step: a successful verify adds exactly one pass, active,
      priced at the transaction's amount, owned by its user and of the pass
      type in its metadata; that transaction becomes completed and points at
      the new pass; its owner then owns exactly that one pass. */
  lemma VerifyCreatesPass(s: State, req: VerifyRequest, gateway: KonfHub.HttpReply, passRowId: RowId, passCode: string)
    requires Consistent(s) && passRowId !in s.passes
    requires Verify(s, req, gateway, passRowId, passCode, true).reply.code == 201
    ensures OrderTx(s, req.orderId).Some?
    ensures var r := Verify(s, req, gateway, passRowId, passCode, true);
      var id := OrderTx(s, req.orderId).value;
      var t := s.transactions[id];
      && r.state.passes.Keys == s.passes.Keys + {passRowId}
      && (forall p :: p in s.passes ==> r.state.passes[p] == s.passes[p])
      && r.state.passes[passRowId].status == Active
      && r.state.passes[passRowId].price == t.amount
      && r.state.passes[passRowId].userId == t.userId
      && r.state.passes[passRowId].passType == MetaPassType(t.metadata)
      && r.state.transactions[id].status == Completed
      && r.state.transactions[id].passRef == Some(passRowId)
      && (forall other :: other in s.transactions && other != id ==> r.state.transactions[other] == s.transactions[other])
      && PassesOf(r.state.passes, t.userId) == {passRowId}
  {
    VerifySucceeded(s, req, gateway, passRowId, passCode);
    var r := Verify(s, req, gateway, passRowId, passCode, true);
    var t := s.transactions[OrderTx(s, req.orderId).value];
    forall p | p in PassesOf(r.state.passes, t.userId)
      ensures p == passRowId
    {
    }
  }

  /** A verify that answers 201 went through the atomic step for the
      order's earliest transaction, which was neither completed nor owned
      by a pass holder. */
  lemma VerifySucceeded(s: State, req: VerifyRequest, gateway: KonfHub.HttpReply, passRowId: RowId, passCode: string)
    requires Consistent(s) && passRowId !in s.passes
    requires Verify(s, req, gateway, passRowId, passCode, true).reply.code == 201
    ensures Truthy(req.orderId) && KonfHub.GetOrder(gateway).Ok?
    ensures KonfHub.GetOrder(gateway).value.status == Some("completed")
    ensures OrderTx(s, req.orderId).Some?
    ensures var id := OrderTx(s, req.orderId).value;
      && s.transactions[id].status != Completed && !HasPass(s.passes, s.transactions[id].userId)
      && Verify(s, req, gateway, passRowId, passCode, true) == PassCreated(s, id, req, passRowId, passCode)
  {
  }

  /** When the atomic step does not commit, nothing changes. */
  lemma VerifyCommitFailure(s: State, req: VerifyRequest, gateway: KonfHub.HttpReply, passRowId: RowId, passCode: string)
    requires Consistent(s) && passRowId !in s.passes
    requires Verify(s, req, gateway, passRowId, passCode, true).reply.code == 201
    ensures Verify(s, req, gateway, passRowId, passCode, false) == Outcome(s, Reply(500, DbErrorMessage))
  {
  }

  /** Verify never gives a second pass to a user who owns one, gives any
      other user at most one, and creates at most one pass in all. */
  lemma VerifyNoSecondPass(s: State, req: VerifyRequest, gateway: KonfHub.HttpReply, passRowId: RowId, passCode: string, commitOk: bool)
    requires Consistent(s) && passRowId !in s.passes
    ensures var r := Verify(s, req, gateway, passRowId, passCode, commitOk);
      && (forall u :: HasPass(s.passes, u) ==> PassesOf(r.state.passes, u) == PassesOf(s.passes, u))
      && (forall u :: !HasPass(s.passes, u) ==> PassesOf(r.state.passes, u) <= {passRowId})
      && r.state.passes.Keys <= s.passes.Keys + {passRowId}
  {
    var r := Verify(s, req, gateway, passRowId, passCode, commitOk);
    AtMostOneNewPass(s.passes, r.state.passes, passRowId);
  }

  /** After a successful verify, verifying the same order again (the
      gateway still reporting it completed) hits "already processed". */
  lemma VerifyTwice(s: State, req: VerifyRequest, gateway: KonfHub.HttpReply, passRowId: RowId, passCode: string,
                    req2: VerifyRequest, passRowId2: RowId, passCode2: string, commitOk2: bool)
    requires Consistent(s) && passRowId !in s.passes
    requires Verify(s, req, gateway, passRowId, passCode, true).reply.code == 201
    requires req2.orderId == req.orderId
    requires passRowId2 !in Verify(s, req, gateway, passRowId, passCode, true).state.passes
    ensures var s' := Verify(s, req, gateway, passRowId, passCode, true).state;
      Verify(s', req2, gateway, passRowId2, passCode2, commitOk2) ==
        Outcome(s', Reply(400, "This payment has already been processed"))
  {
    VerifySucceeded(s, req, gateway, passRowId, passCode);
    var s' := Verify(s, req, gateway, passRowId, passCode, true).state;
    FirstTxStable(s.transactions, s'.transactions, s.txOrder, req.orderId);
  }

  // ---------------------------------------------------------------------
  // POST /payment-failed

  /** `POST /payment-failed`: the earliest transaction with the order id
      becomes failed; its metadata keeps every key and gains the error and
      the time. */
  ghost function PaymentFailed(s: State, orderId: Option<string>, error: Option<string>): (r: Outcome)
    requires Consistent(s)
    ensures Consistent(r.state)
    ensures r.state.users == s.users && r.state.passes == s.passes && r.state.txOrder == s.txOrder
    ensures r.reply.code != 200 ==> r.state == s
  {
    if !Truthy(orderId) then Outcome(s, Reply(400, "Order ID is required"))
    else
      match FirstTx(s.transactions, s.txOrder, orderId)
      case None => Outcome(s, Reply(404, "Transaction not found"))
      case Some(id) =>
        var t := s.transactions[id];
        var message := if Truthy(error) then error.value else "Payment cancelled by user";
        Outcome(s.(transactions := s.transactions[id := t.(status := Failed,
                   metadata := t.metadata["error" := Str(message)]["failedAt" := Time])]),
                Reply(200, "Payment failure recorded"))
  }

  method PaymentFailedHandler(db: Database, orderId: Option<string>, error: Option<string>) returns (reply: Reply)
    requires db.Valid()
    modifies db
    ensures db.Valid()
    ensures Outcome(db.Snapshot(), reply) == PaymentFailed(old(db.Snapshot()), orderId, error)
  {
    if !Truthy(orderId) {
      return Reply(400, "Order ID is required");
    }
    var found := FirstTx(db.transactions, db.txOrder, orderId);
    if found.None? {
      return Reply(404, "Transaction not found");
    }
    var id := found.value;
    var t := db.transactions[id];
    var message := if Truthy(error) then error.value else "Payment cancelled by user";
    db.transactions := db.transactions[id := t.(status := Failed,
                         metadata := t.metadata["error" := Str(message)]["failedAt" := Time])];
    reply := Reply(200, "Payment failure recorded");
  }

  /** Payment-failed sets `failed` (even over `completed`) on the order's
      transaction, keeps its metadata keys, and changes nothing else. */
  lemma PaymentFailedKeepsMetadata(s: State, orderId: Option<string>, error: Option<string>)
    requires Consistent(s)
    requires Truthy(orderId) && OrderTx(s, orderId).Some?
    ensures var r := PaymentFailed(s, orderId, error);
      var id := OrderTx(s, orderId).value;
      var message := if Truthy(error) then error.value else "Payment cancelled by user";
      && r.reply.code == 200
      && r.state.transactions[id].status == Failed
      && s.transactions[id].metadata.Keys <= r.state.transactions[id].metadata.Keys
      && r.state.transactions[id] == s.transactions[id].(status := Failed,
           metadata := s.transactions[id].metadata["error" := Str(message)]["failedAt" := Time])
      && (forall k :: k in s.transactions[id].metadata && k !in {"error", "failedAt"} ==>
            r.state.transactions[id].metadata[k] == s.transactions[id].metadata[k])
      && (forall other :: other in s.transactions && other != id ==> r.state.transactions[other] == s.transactions[other])
  {
  }

  // ---------------------------------------------------------------------
  // POST /webhook

  /** The fields of the webhook body the handler reads. */
  datatype WebhookBody = WebhookBody(event: Option<string>, orderId: Option<string>, ticketId: Option<string>, paymentId: Option<string>)

  /** The 200 reply of a processed webhook. */
  const WebhookOk: Reply := Reply(200, "Webhook processed successfully")

  /** `POST /webhook`. `secret` is the configured webhook secret (`""` when
      unset), `signature` the signature header, `digest` the hex HMAC of the
      serialised body; an absent order id matches every transaction (the
      query builder drops an `undefined` filter). */
  ghost function Webhook(s: State, secret: string, signature: Option<string>, digest: KonfHub.Digest, body: WebhookBody,
                         passRowId: RowId, passCode: string, commitOk: bool)
    : (r: Outcome)
    requires Consistent(s) && passRowId !in s.passes
    ensures Consistent(r.state)
    ensures r.state.users == s.users && r.state.txOrder == s.txOrder
    ensures r.state.transactions.Keys == s.transactions.Keys
    ensures r.state.passes.Keys <= s.passes.Keys + {passRowId}
    ensures forall p :: p in s.passes ==> p in r.state.passes && r.state.passes[p] == s.passes[p]
    ensures r.reply.code != 200 ==> r.state == s
  {
    if !KonfHub.VerifyWebhookSignature(secret, signature, digest) then Outcome(s, Reply(401, "Invalid signature"))
    else
      match FirstTx(s.transactions, s.txOrder, body.orderId)
      case None => Outcome(s, Reply(200, "Webhook received but transaction not found"))
      case Some(id) => WebhookEvent(s, id, body, passRowId, passCode, commitOk)
  }

  /** The webhook once the order's transaction `id` is found: the event
      decides the update. */
  ghost function WebhookEvent(s: State, id: RowId, body: WebhookBody, passRowId: RowId, passCode: string, commitOk: bool)
    : (r: Outcome)
    requires Consistent(s) && passRowId !in s.passes && id in s.transactions
    ensures Consistent(r.state)
    ensures r.state.users == s.users && r.state.txOrder == s.txOrder
    ensures r.state.transactions.Keys == s.transactions.Keys
    ensures r.state.passes.Keys <= s.passes.Keys + {passRowId}
    ensures forall p :: p in s.passes ==> p in r.state.passes && r.state.passes[p] == s.passes[p]
    ensures r.reply.code != 200 ==> r.state == s
  {
    var t := s.transactions[id];
    var m := t.metadata;
    if body.event == Some("order.completed") then
      if t.status == Completed then Outcome(s, WebhookOk)
      else if !commitOk then Outcome(s, Reply(500, DbErrorMessage))
      else
        var t' := t.(passRef := Some(passRowId), ticketId := Keep(body.ticketId, t.ticketId),
                     paymentId := Keep(body.paymentId, t.paymentId), status := Completed,
                     metadata := m["completedAt" := Time]["passId" := Str(passCode)]["webhookProcessed" := Flag(true)]);
        TxUpdateConsistent(s, id, t');
        Outcome(s.(passes := s.passes[passRowId := NewPass(t, passCode, MetaWorkshop(m))],
                   transactions := s.transactions[id := t']), WebhookOk)
    else if body.event == Some("order.cancelled") then
      var t' := t.(status := TxStatus.Cancelled, metadata := m["cancelledAt" := Time]["webhookProcessed" := Flag(true)]);
      TxUpdateConsistent(s, id, t');
      Outcome(s.(transactions := s.transactions[id := t']), WebhookOk)
    else if body.event == Some("ticket.issued") then
      var t' := t.(ticketId := Keep(body.ticketId, t.ticketId),
                   metadata := m["ticketIssuedAt" := Time]["webhookProcessed" := Flag(true)]);
      TxUpdateConsistent(s, id, t');
      Outcome(s.(transactions := s.transactions[id := t']), WebhookOk)
    else Outcome(s, WebhookOk)
  }

  method WebhookHandler(db: Database, secret: string, signature: Option<string>, digest: KonfHub.Digest, body: WebhookBody,
                        passRowId: RowId, passCode: string, commitOk: bool)
    returns (reply: Reply)
    requires db.Valid() && passRowId !in db.passes
    modifies db
    ensures db.Valid()
    ensures Outcome(db.Snapshot(), reply) == Webhook(old(db.Snapshot()), secret, signature, digest, body, passRowId, passCode, commitOk)
  {
    var isValid := KonfHub.VerifyWebhookSignature(secret, signature, digest);
    if !isValid {
      return Reply(401, "Invalid signature");
    }
    var found := FirstTx(db.transactions, db.txOrder, body.orderId);
    if found.None? {
      return Reply(200, "Webhook received but transaction not found");
    }
    var id := found.value;
    var t := db.transactions[id];
    var m := t.metadata;
    if body.event == Some("order.completed") {
      if t.status != Completed {
        if !commitOk {
          return Reply(500, DbErrorMessage);
        }
        // The pass and the completed transaction are written in one step.
        db.passes := db.passes[passRowId := NewPass(t, passCode, MetaWorkshop(m))];
        db.transactions := db.transactions[id := t.(passRef := Some(passRowId), ticketId := Keep(body.ticketId, t.ticketId),
                             paymentId := Keep(body.paymentId, t.paymentId), status := Completed,
                             metadata := m["completedAt" := Time]["passId" := Str(passCode)]["webhookProcessed" := Flag(true)])];
      }
    } else if body.event == Some("order.cancelled") {
      db.transactions := db.transactions[id := t.(status := TxStatus.Cancelled,
                           metadata := m["cancelledAt" := Time]["webhookProcessed" := Flag(true)])];
    } else if body.event == Some("ticket.issued") {
      db.transactions := db.transactions[id := t.(ticketId := Keep(body.ticketId, t.ticketId),
                           metadata := m["ticketIssuedAt" := Time]["webhookProcessed" := Flag(true)])];
    }
    reply := WebhookOk;
  }

  /** A signature that does not verify gives 401 and nothing changes. */
  lemma WebhookBadSignature(s: State, secret: string, signature: Option<string>, digest: KonfHub.Digest, body: WebhookBody,
                            passRowId: RowId, passCode: string, commitOk: bool)
    requires Consistent(s) && passRowId !in s.passes
    requires secret != "" && (digest.None? || signature != Some(digest.value))
    ensures Webhook(s, secret, signature, digest, body, passRowId, passCode, commitOk) == Outcome(s, Reply(401, "Invalid signature"))
  {
  }

  /** An order no transaction carries gives 200 and nothing changes. */
  lemma WebhookUnknownOrder(s: State, secret: string, signature: Option<string>, digest: KonfHub.Digest, body: WebhookBody,
                            passRowId: RowId, passCode: string, commitOk: bool)
    requires Consistent(s) && passRowId !in s.passes
    requires KonfHub.VerifyWebhookSignature(secret, signature, digest)
    requires forall id :: id in s.transactions ==> !OrderMatches(s.transactions[id], body.orderId)
    ensures Webhook(s, secret, signature, digest, body, passRowId, passCode, commitOk) ==
      Outcome(s, Reply(200, "Webhook received but transaction not found"))
  {
    FirstTxNone(s, body.orderId);
  }

  /** Idempotency: `order.completed` for an order whose transaction is
      already completed changes nothing, so a repeated delivery creates no
      second pass. */
  lemma WebhookReplayNoop(s: State, secret: string, signature: Option<string>, digest: KonfHub.Digest, body: WebhookBody,
                          passRowId: RowId, passCode: string, commitOk: bool)
    requires Consistent(s) && passRowId !in s.passes
    requires body.event == Some("order.completed")
    requires OrderTx(s, body.orderId).Some? && s.transactions[OrderTx(s, body.orderId).value].status == Completed
    ensures Webhook(s, secret, signature, digest, body, passRowId, passCode, commitOk).state == s
  {
  }

  /** `order.completed` for a transaction not yet completed creates one pass
      for its user and completes it, whether or not that user already owns
      a pass: the webhook does not repeat verify's ownership check. */
  lemma WebhookCompletes(s: State, secret: string, signature: Option<string>, digest: KonfHub.Digest, body: WebhookBody,
                         passRowId: RowId, passCode: string)
    requires Consistent(s) && passRowId !in s.passes
    requires KonfHub.VerifyWebhookSignature(secret, signature, digest)
    requires body.event == Some("order.completed")
    requires OrderTx(s, body.orderId).Some? && s.transactions[OrderTx(s, body.orderId).value].status != Completed
    ensures var r := Webhook(s, secret, signature, digest, body, passRowId, passCode, true);
      var id := OrderTx(s, body.orderId).value;
      var owner := s.transactions[id].userId;
      && r.reply == WebhookOk
      && r.state.passes.Keys == s.passes.Keys + {passRowId}
      && r.state.passes[passRowId].userId == owner
      && r.state.passes[passRowId].status == Active
      && r.state.transactions[id].status == Completed
      && r.state.transactions[id].passRef == Some(passRowId)
      && PassesOf(r.state.passes, owner) == PassesOf(s.passes, owner) + {passRowId}
  {
  }

  /** A delivery repeated after a processed one changes nothing more. */
  lemma WebhookTwice(s: State, secret: string, signature: Option<string>, digest: KonfHub.Digest, body: WebhookBody,
                     passRowId: RowId, passCode: string, commitOk: bool, passRowId2: RowId, passCode2: string, commitOk2: bool)
    requires Consistent(s) && passRowId !in s.passes
    requires body.event == Some("order.completed")
    requires passRowId2 !in Webhook(s, secret, signature, digest, body, passRowId, passCode, commitOk).state.passes
    requires Webhook(s, secret, signature, digest, body, passRowId, passCode, commitOk).reply == WebhookOk
    ensures var s' := Webhook(s, secret, signature, digest, body, passRowId, passCode, commitOk).state;
      Webhook(s', secret, signature, digest, body, passRowId2, passCode2, commitOk2).state == s'
  {
    var s' := Webhook(s, secret, signature, digest, body, passRowId, passCode, commitOk).state;
    FirstTxStable(s.transactions, s'.transactions, s.txOrder, body.orderId);
  }

  /** Whichever of verify and the webhook completes an order first, the
      other then creates no pass: after a successful verify the webhook
      changes nothing, ... */
  lemma VerifyThenWebhook(s: State, req: VerifyRequest, gateway: KonfHub.HttpReply, passRowId: RowId, passCode: string,
                          secret: string, signature: Option<string>, digest: KonfHub.Digest, body: WebhookBody,
                          passRowId2: RowId, passCode2: string, commitOk2: bool)
    requires Consistent(s) && passRowId !in s.passes
    requires Verify(s, req, gateway, passRowId, passCode, true).reply.code == 201
    requires body.event == Some("order.completed") && body.orderId == req.orderId
    requires passRowId2 !in Verify(s, req, gateway, passRowId, passCode, true).state.passes
    ensures var s' := Verify(s, req, gateway, passRowId, passCode, true).state;
      Webhook(s', secret, signature, digest, body, passRowId2, passCode2, commitOk2).state == s'
  {
    VerifySucceeded(s, req, gateway, passRowId, passCode);
    var s' := Verify(s, req, gateway, passRowId, passCode, true).state;
    FirstTxStable(s.transactions, s'.transactions, s.txOrder, req.orderId);
  }

  /** ... and after the webhook completed it, verify answers "already
      processed". */
  lemma WebhookThenVerify(s: State, secret: string, signature: Option<string>, digest: KonfHub.Digest, body: WebhookBody,
                          passRowId: RowId, passCode: string,
                          req: VerifyRequest, gateway: KonfHub.HttpReply, passRowId2: RowId, passCode2: string, commitOk2: bool)
    requires Consistent(s) && passRowId !in s.passes
    requires body.event == Some("order.completed") && Truthy(body.orderId)
    requires Webhook(s, secret, signature, digest, body, passRowId, passCode, true).reply == WebhookOk
    requires OrderTx(s, body.orderId).Some?
    requires req.orderId == body.orderId && gateway.Success? && gateway.body.status == Some("completed")
    requires passRowId2 !in Webhook(s, secret, signature, digest, body, passRowId, passCode, true).state.passes
    ensures var s' := Webhook(s, secret, signature, digest, body, passRowId, passCode, true).state;
      Verify(s', req, gateway, passRowId2, passCode2, commitOk2) ==
        Outcome(s', Reply(400, "This payment has already been processed"))
  {
    var s' := Webhook(s, secret, signature, digest, body, passRowId, passCode, true).state;
    FirstTxStable(s.transactions, s'.transactions, s.txOrder, body.orderId);
  }

  /** `order.cancelled` sets `cancelled` on the order's transaction (even a
      completed one) and keeps its metadata keys. */
  lemma WebhookCancelled(s: State, secret: string, signature: Option<string>, digest: KonfHub.Digest, body: WebhookBody,
                         passRowId: RowId, passCode: string, commitOk: bool)
    requires Consistent(s) && passRowId !in s.passes
    requires KonfHub.VerifyWebhookSignature(secret, signature, digest)
    requires body.event == Some("order.cancelled") && OrderTx(s, body.orderId).Some?
    ensures var r := Webhook(s, secret, signature, digest, body, passRowId, passCode, commitOk);
      var id := OrderTx(s, body.orderId).value;
      && r.reply == WebhookOk
      && r.state.passes == s.passes
      && r.state.transactions[id].status == TxStatus.Cancelled
      && s.transactions[id].metadata.Keys <= r.state.transactions[id].metadata.Keys
      && r.state.transactions[id] == s.transactions[id].(status := TxStatus.Cancelled,
           metadata := s.transactions[id].metadata["cancelledAt" := Time]["webhookProcessed" := Flag(true)])
      && (forall other :: other in s.transactions && other != id ==> r.state.transactions[other] == s.transactions[other])
  {
  }

  /** `ticket.issued` changes only the ticket id and the metadata of the
      order's transaction. */
  lemma WebhookTicketIssued(s: State, secret: string, signature: Option<string>, digest: KonfHub.Digest, body: WebhookBody,
                            passRowId: RowId, passCode: string, commitOk: bool)
    requires Consistent(s) && passRowId !in s.passes
    requires KonfHub.VerifyWebhookSignature(secret, signature, digest)
    requires body.event == Some("ticket.issued") && OrderTx(s, body.orderId).Some?
    ensures var r := Webhook(s, secret, signature, digest, body, passRowId, passCode, commitOk);
      var id := OrderTx(s, body.orderId).value;
      && r.reply == WebhookOk
      && r.state.passes == s.passes
      && r.state.transactions[id] == s.transactions[id].(ticketId := r.state.transactions[id].ticketId,
                                                         metadata := r.state.transactions[id].metadata)
      && (body.ticketId.Some? ==> r.state.transactions[id].ticketId == body.ticketId)
      && (forall other :: other in s.transactions && other != id ==> r.state.transactions[other] == s.transactions[other])
  {
  }

  /** Any other event is acknowledged and changes nothing. */
  lemma WebhookOtherEvent(s: State, secret: string, signature: Option<string>, digest: KonfHub.Digest, body: WebhookBody,
                          passRowId: RowId, passCode: string, commitOk: bool)
    requires Consistent(s) && passRowId !in s.passes
    requires body.event !in {Some("order.completed"), Some("order.cancelled"), Some("ticket.issued")}
    ensures Webhook(s, secret, signature, digest, body, passRowId, passCode, commitOk).state == s
  {
  }

  // ---------------------------------------------------------------------
  // POST /cancel

  /** The state, the reply and the order id sent to the gateway's cancel
      call (if it was made). */
  datatype CancelOutcome = CancelOutcome(state: State, reply: Reply, sent: Option<string>)

  /** `POST /cancel`. `gateway` is the gateway's reply to `cancelOrder`. */
  ghost function Cancel(s: State, transactionId: Option<string>, gateway: KonfHub.HttpReply): (r: CancelOutcome)
    requires Consistent(s)
    ensures Consistent(r.state)
    ensures r.state.users == s.users && r.state.passes == s.passes && r.state.txOrder == s.txOrder
    ensures r.reply.code != 200 ==> r.state == s
  {
    if !Truthy(transactionId) then CancelOutcome(s, Reply(400, "Transaction ID is required"), None)
    else if transactionId.value !in s.transactions then CancelOutcome(s, Reply(404, "Transaction not found"), None)
    else CancelFound(s, transactionId.value, gateway)
  }

  /** Cancel once the transaction `id` is found. */
  ghost function CancelFound(s: State, id: RowId, gateway: KonfHub.HttpReply): (r: CancelOutcome)
    requires Consistent(s) && id in s.transactions
    ensures Consistent(r.state)
    ensures r.state.users == s.users && r.state.passes == s.passes && r.state.txOrder == s.txOrder
    ensures r.reply.code != 200 ==> r.state == s
  {
    var t := s.transactions[id];
    if t.status == Completed || !Truthy(t.orderId) then
      CancelOutcome(s, Reply(400, if t.status == Completed then "Cannot cancel completed transactions. Request a refund instead."
                                  else "KonfHub order ID not found"), None)
    else
      match KonfHub.CancelOrder(gateway)
      case Err(e) => CancelOutcome(s, ErrorReply(e, "Failed to cancel order"), t.orderId)
      case Ok(_) =>
        var t' := t.(status := TxStatus.Cancelled, metadata := t.metadata["cancelledAt" := Time]);
        TxUpdateConsistent(s, id, t');
        CancelOutcome(s.(transactions := s.transactions[id := t']), Reply(200, "Order cancelled successfully"), t.orderId)
  }

  method CancelHandler(db: Database, transactionId: Option<string>, gateway: KonfHub.HttpReply)
    returns (reply: Reply, sent: Option<string>)
    requires db.Valid()
    modifies db
    ensures db.Valid()
    ensures CancelOutcome(db.Snapshot(), reply, sent) == Cancel(old(db.Snapshot()), transactionId, gateway)
  {
    sent := None;
    if !Truthy(transactionId) {
      reply := Reply(400, "Transaction ID is required");
      return;
    }
    var id := transactionId.value;
    if id !in db.transactions {
      reply := Reply(404, "Transaction not found");
      return;
    }
    var t := db.transactions[id];
    if t.status == Completed {
      reply := Reply(400, "Cannot cancel completed transactions. Request a refund instead.");
      return;
    }
    if !Truthy(t.orderId) {
      reply := Reply(400, "KonfHub order ID not found");
      return;
    }
    sent := t.orderId;
    var result := KonfHub.CancelOrder(gateway);
    if result.Err? {
      reply := ErrorReply(result.error, "Failed to cancel order");
      return;
    }
    db.transactions := db.transactions[id := t.(status := TxStatus.Cancelled, metadata := t.metadata["cancelledAt" := Time])];
    reply := Reply(200, "Order cancelled successfully");
  }

  /** Cancel refuses a missing transaction (404), a completed one or one
      without a gateway order id (400), changing nothing and calling no
      gateway; otherwise, when the gateway accepts, the transaction ends
      `cancelled` with its metadata keys kept and nothing else changes. */
  lemma CancelOutcomes(s: State, transactionId: Option<string>, gateway: KonfHub.HttpReply)
    requires Consistent(s) && Truthy(transactionId)
    ensures var r := Cancel(s, transactionId, gateway);
      var id := transactionId.value;
      && (id !in s.transactions ==> r.state == s && r.reply.code == 404 && r.sent.None?)
      && (id in s.transactions && (s.transactions[id].status == Completed || !Truthy(s.transactions[id].orderId)) ==>
            r.state == s && r.reply.code == 400 && r.sent.None?)
      && (id in s.transactions && s.transactions[id].status != Completed && Truthy(s.transactions[id].orderId) ==>
            && r.sent == s.transactions[id].orderId
            && (gateway.Success? <==> r.reply.code == 200)
            && (gateway.Success? ==>
                  && r.state.transactions[id].status == TxStatus.Cancelled
                  && s.transactions[id].metadata.Keys <= r.state.transactions[id].metadata.Keys
                  && r.state.transactions[id] == s.transactions[id].(status := TxStatus.Cancelled,
                       metadata := s.transactions[id].metadata["cancelledAt" := Time])
                  && (forall other :: other in s.transactions && other != id ==>
                        r.state.transactions[other] == s.transactions[other])))
  {
  }

  // ---------------------------------------------------------------------
  // The reads

  /** `GET /transaction/:transactionId`: the row, or 404. */
  function TransactionDetails(transactions: map<RowId, Transaction>, id: RowId): (r: (Reply, Option<Transaction>))
    ensures r.1.Some? <==> id in transactions
    ensures r.1.Some? ==> r.1.value == transactions[id] && r.0.code == 200
    ensures r.1.None? ==> r.0 == Reply(404, "Transaction not found")
  {
    if id in transactions then (Reply(200, "Transaction details fetched successfully"), Some(transactions[id]))
    else (Reply(404, "Transaction not found"), None)
  }

  /** The user's transactions, newest first (`orderBy createdAt desc`). */
  function TransactionsOf(s: State, userId: RowId): (r: seq<RowId>)
    ensures |r| <= |s.txOrder|
    ensures forall i :: 0 <= i < |r| ==> r[i] in s.transactions && s.transactions[r[i]].userId == userId
    ensures forall i, j :: 0 <= i < j < |r| ==> Precedes(s.txOrder, r[j], r[i])
  {
    var mine := k => k in s.transactions && s.transactions[k].userId == userId;
    FilterKeepsOrder(s.txOrder, mine);
    Reverse(Filter(s.txOrder, mine))
  }

  /** `GET /user/:clerkUserId/transactions`: the user table after
      `ensureUserExists`, the reply and the user's transactions. */
  ghost function UserTransactions(s: State, clerkUserId: string, profile: Option<ClerkProfile>, newUserId: RowId)
    : (r: (Users, Reply, seq<RowId>))
    requires Consistent(s) && newUserId !in s.users
    ensures UniqueUsers(r.0)
    ensures r.1.code != 200 ==> r.2 == []
  {
    var (users', found) := EnsureUser(s.users, clerkUserId, profile, newUserId);
    match found
    case None => (users', Reply(500, SyncFailed), [])
    case Some(uid) => (users', Reply(200, "Transactions fetched successfully"), TransactionsOf(s, uid))
  }

  /** The list holds exactly the user's transactions, each once, newest
      first. */
  lemma TransactionsOfExact(s: State, userId: RowId)
    requires Consistent(s)
    ensures var r := TransactionsOf(s, userId);
      && (forall i :: 0 <= i < |r| ==> r[i] in s.transactions && s.transactions[r[i]].userId == userId)
      && (forall id :: id in s.transactions && s.transactions[id].userId == userId ==> id in r)
      && (forall i, j :: 0 <= i < j < |r| ==> r[i] != r[j])
      && (forall i, j :: 0 <= i < j < |r| ==> Precedes(s.txOrder, r[j], r[i]))
  {
    var p := k => k in s.transactions && s.transactions[k].userId == userId;
    var f := Filter(s.txOrder, p);
    var r := TransactionsOf(s, userId);
    FilterKeeps(s.txOrder, p);
    forall id | id in s.transactions && s.transactions[id].userId == userId
      ensures id in r
    {
      var i :| 0 <= i < |s.txOrder| && s.txOrder[i] == id;
      assert id in f;
      var j :| 0 <= j < |f| && f[j] == id;
      assert r[|f| - 1 - j] == id;
    }
  }

  /** After a successful create-order the new transaction heads the buyer's
      list and can be read back by its id. */
  lemma CreatedTransactionListedFirst(s: State, req: OrderRequest, profile: Option<ClerkProfile>, newUserId: RowId,
                                      invoiceNumber: string, transactionNumber: string, gateway: KonfHub.HttpReply, txId: RowId)
    requires Consistent(s) && newUserId !in s.users && txId !in s.transactions
    requires CreateOrder(s, req, profile, newUserId, invoiceNumber, transactionNumber, gateway, txId).reply.code == 201
    ensures var r := CreateOrder(s, req, profile, newUserId, invoiceNumber, transactionNumber, gateway, txId);
      && txId in r.state.transactions
      && var t := r.state.transactions[txId];
      && TransactionDetails(r.state.transactions, txId).1 == Some(t)
      && var list := TransactionsOf(r.state, t.userId);
      |list| > 0 && list[0] == txId
  {
    CreateOrderAddsPending(s, req, profile, newUserId, invoiceNumber, transactionNumber, gateway, txId);
    var r := CreateOrder(s, req, profile, newUserId, invoiceNumber, transactionNumber, gateway, txId);
    var uid := r.state.transactions[txId].userId;
    var p := k => k in r.state.transactions && r.state.transactions[k].userId == uid;
    FilterAppend(s.txOrder, [txId], p);
    assert r.state.txOrder == s.txOrder + [txId];
  }
}
