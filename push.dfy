/** The push controller: server-to-server payment notifications. A successful
    push of a new-order payment type gets its order (creating it from the quote
    when none is stored yet); a receipt then books the paid amount on the order,
    guarded by the heidelpay transaction table against replays. */
module Push {
  import opened Sales
  import opened Gateway
  import opened Shop
  import OrderHelper

  /** An inbound push: method, the advisory headers, and the SDK's parse of the
      XML body (None when parsing threw). */
  datatype PushRequest = PushRequest(
    isPost: bool,
    contentType: string,
    timestamp: string,
    retries: string,
    parsed: Option<GatewayResponse>)

  /** Where the handler stopped. QuoteMissing, NoPayment and ForeignMethod end
      the request with an uncaught PHP exception or error: ForeignMethod is an
      order paid with a method of another module, whose method instance has no
      heidelpay transaction table to ask. */
  datatype PushOutcome =
    | NotPost
    | ParseFailed
    | Skipped
    | QuoteMissing
    | CreationFailed
    | NotReceiptAble
    | NoPayment
    | ForeignMethod
    | Duplicate
    | Accounted(state: OrderState)

  // ---------------------------------------------------------------------------
  // Specification

  /** Debug notices about the advisory headers; neither stops processing. */
  function HeaderNotices(req: PushRequest): seq<Effect>
  {
    (if req.contentType != "application/xml" then [Logged(PushContentTypeNotXml)] else [])
    + (if req.timestamp != "" && req.retries != "" then [Logged(PushHeaders(req.timestamp, req.retries))] else [])
  }

  /** Every invoice of the collection in state Paid, nothing else changed. */
  function PaidInvoices(invoices: seq<Invoice>): (paid: seq<Invoice>)
    ensures |paid| == |invoices|
    ensures forall i :: 0 <= i < |invoices| ==> paid[i] == invoices[i].(state := Paid)
  {
    seq(|invoices|, i requires 0 <= i < |invoices| => invoices[i].(state := Paid))
  }

  /** The invoice saves of the marking loop, one per invoice. */
  function InvoiceSaves(invoices: seq<Invoice>): (saves: seq<Effect>)
    ensures |saves| == |invoices|
    ensures forall i :: 0 <= i < |invoices| ==> saves[i] == InvoiceSaved(invoices[i].id)
  {
    seq(|invoices|, i requires 0 <= i < |invoices| => InvoiceSaved(invoices[i].id))
  }

  /** The payment after a closed capture transaction for this push was added. */
  function Captured(p: Payment, resp: GatewayResponse): Payment
  {
    p.(transactionId := resp.paymentReferenceId,
       parentTransactionId := resp.referenceId,
       isTransactionClosed := true,
       transactions := p.transactions + [PaymentTransaction(Capture, resp.paymentReferenceId, resp.referenceId, true)])
  }

  /** The order after a receipt of `resp.amount` was accepted. */
  function Receipt(o: OrderRecord, resp: GatewayResponse): (paid: OrderRecord)
    requires o.payment.Some?
    ensures paid.totalPaid == o.totalPaid + resp.amount
    ensures paid.baseTotalPaid == o.baseTotalPaid + resp.amount
    ensures paid.state == PaymentReview <==> o.TotalDue() - resp.amount > 0
    ensures paid.state == Processing <==> o.TotalDue() - resp.amount <= 0
    ensures o.TotalDue() - resp.amount <= 0 ==>
              |paid.invoices| == |o.invoices| &&
              forall i :: 0 <= i < |o.invoices| ==> paid.invoices[i] == Invoice(o.invoices[i].id, Paid)
    ensures o.TotalDue() - resp.amount > 0 ==> paid.invoices == o.invoices
    ensures paid.history == o.history + [HistoryEntry(
              if o.TotalDue() - resp.amount > 0 then PartlyPaid(resp.amount, resp.currency) else PurchaseComplete,
              paid.state)]
    ensures paid.payment.Some? &&
            paid.payment.value.transactions ==
              o.payment.value.transactions + [PaymentTransaction(Capture, resp.paymentReferenceId, resp.referenceId, true)]
    ensures paid.payment.Some? &&
            paid.payment.value.instance == o.payment.value.instance &&
            paid.payment.value.transactionId == resp.paymentReferenceId &&
            paid.payment.value.parentTransactionId == resp.referenceId &&
            paid.payment.value.isTransactionClosed
    ensures paid.entityId == o.entityId && paid.quoteId == o.quoteId && paid.grandTotal == o.grandTotal
    ensures paid.incrementId == o.incrementId && paid.storeId == o.storeId &&
            paid.emailSent == o.emailSent && paid.canInvoice == o.canInvoice
  {
    var dueLeft := o.TotalDue() - resp.amount;
    var partly := dueLeft > 0;
    o.(totalPaid := o.totalPaid + resp.amount,
       baseTotalPaid := o.baseTotalPaid + resp.amount,
       state := if partly then PaymentReview else Processing,
       history := o.history + [HistoryEntry(if partly then PartlyPaid(resp.amount, resp.currency) else PurchaseComplete,
                                            if partly then PaymentReview else Processing)],
       invoices := if partly then o.invoices else PaidInvoices(o.invoices),
       payment := Some(Captured(o.payment.value, resp)))
  }

  /** A freshly created order after mapStatus. */
  function Mapped(created: OrderRecord, resp: GatewayResponse, c: Collaborators): OrderRecord
  {
    created.(state := c.mapStatus(resp.fields, created))
  }

  /** The order the push works on and the store after getting it: the stored
      order of the quote, or else (no order, or an empty one) an order created
      from the quote, which is mapped, mailed and saved. The push is recorded in
      the transaction table before creation is tried; a null or empty created
      order ends the push like an exception does. */
  function OrderForPush(s: Store, quote: Quote, resp: GatewayResponse, c: Collaborators): (Store, Option<OrderRecord>)
  {
    var found := OrderHelper.FetchOrderByQuoteId(s.orders, resp.transactionId);
    if found.Some? && found.value.entityId != 0 then (s, found)
    else
      var recorded := s.(ledger := s.ledger + [LedgerRecord(resp, PushChannel, resp.fields)]);
      var creation := c.createOrderFromQuote(quote);
      if creation.Created? && creation.order.entityId != 0 then
        var o := Mapped(creation.order, resp, c);
        (recorded.(orders := SaveOrder(recorded.orders, o),
                   effects := recorded.effects
                              + OrderHelper.OrderMailEffects(Some(o), c.orderSenderThrows)
                              + OrderHelper.InvoiceMails(o, c.canSendNewInvoiceEmail)
                              + [OrderSaved(o.entityId)]),
         Some(o))
      else
        (recorded.(effects := recorded.effects + [Logged(PushCreationFailed(resp.transactionId))]), None)
  }

  /** Books an accepted receipt: invoices (when nothing is due), totals, state,
      history, the transaction table and the capture, then saves the order. */
  function AcceptReceipt(s: Store, o: OrderRecord, resp: GatewayResponse): (Store, PushOutcome)
    requires o.payment.Some?
  {
    var paid := Receipt(o, resp);
    (s.(orders := SaveOrder(s.orders, paid),
        ledger := s.ledger + [LedgerRecord(resp, PushChannel, map[])],
        effects := s.effects
                   + (if o.TotalDue() - resp.amount <= 0 then InvoiceSaves(o.invoices) else [])
                   + [OrderSaved(paid.entityId)]),
     Accounted(paid.state))
  }

  /** What one push does to the store, and where it stops. */
  function PushSpec(s: Store, req: PushRequest, c: Collaborators): (Store, PushOutcome)
  {
    if !req.isPost then (s, NotPost)
    else
      var s1 := s.(effects := s.effects + HeaderNotices(req));
      if req.parsed.None? then (s1.(effects := s1.effects + [Logged(PushParseFailed)]), ParseFailed)
      else HandlePush(s1, req.parsed.value, c)
  }

  /** A parsed push: only a successful new-order payment type with an existing
      quote gets its order; a receipt-able one with a payment and an unknown
      reference id is booked. */
  function HandlePush(s: Store, resp: GatewayResponse, c: Collaborators): (Store, PushOutcome)
  {
    var (paymentMethod, paymentType) := c.splitPaymentCode(resp.paymentCode);
    if !(resp.outcome == Success && c.isNewOrderType(paymentType)) then (s, Skipped)
    else if resp.transactionId !in s.quotes then (s, QuoteMissing)
    else
      var (s2, order) := OrderForPush(s, s.quotes[resp.transactionId], resp, c);
      if order.None? then (s2, CreationFailed)
      else
        var s3 := s2.(effects := s2.effects + [AdditionalInfoHandled(resp.transactionId)]);
        BookOrder(s3, order.value, resp, c.isReceiptAble(paymentMethod, paymentType))
  }

  /** Once the order is there: a receipt-able push on an order with a heidelpay
      payment and an unknown reference id is booked, a known one is logged as
      a duplicate. */
  function BookOrder(s: Store, o: OrderRecord, resp: GatewayResponse, receiptAble: bool): (Store, PushOutcome)
  {
    if !receiptAble then (s, NotReceiptAble)
    else if o.payment.None? then (s, NoPayment)
    else if !o.payment.value.instance.HeidelpayMethod? then (s, ForeignMethod)
    else if TransactionExists(s.ledger, resp.paymentReferenceId) then
      (s.(effects := s.effects + [Logged(PushDuplicate(resp.paymentReferenceId))]), Duplicate)
    else
      AcceptReceipt(s, o, resp)
  }

  // ---------------------------------------------------------------------------
  // The controller

  /** OrderRepository::save for a loaded model. */
  method SaveModel(order: SalesOrder, backend: Backend)
    modifies backend`orders, backend`effects
    ensures backend.orders == SaveOrder(old(backend.orders), order.Record())
    ensures backend.effects == old(backend.effects) + [OrderSaved(order.entityId)]
  {
    backend.orders := SaveOrder(backend.orders, order.Record());
    backend.effects := backend.effects + [OrderSaved(order.entityId)];
  }

  /** The loop that sets every invoice of the order to Paid and saves it. */
  method MarkInvoicesPaid(order: SalesOrder, backend: Backend)
    modifies order`invoices, backend`effects
    ensures order.invoices == PaidInvoices(old(order.invoices))
    ensures backend.effects == old(backend.effects) + InvoiceSaves(old(order.invoices))
  {
    ghost var invoices := order.invoices;
    var i := 0;
    while i < |order.invoices|
      invariant |order.invoices| == |invoices| && 0 <= i <= |invoices|
      invariant forall k :: 0 <= k < i ==> order.invoices[k] == invoices[k].(state := Paid)
      invariant forall k :: i <= k < |invoices| ==> order.invoices[k] == invoices[k]
      invariant backend.effects == old(backend.effects) + InvoiceSaves(invoices[..i])
    {
      assert InvoiceSaves(invoices[..i + 1]) == InvoiceSaves(invoices[..i]) + [InvoiceSaved(invoices[i].id)];
      order.invoices := order.invoices[i := order.invoices[i].(state := Paid)];
      backend.effects := backend.effects + [InvoiceSaved(order.invoices[i].id)];
      i := i + 1;
    }
    assert invoices[..i] == invoices;
  }

  /** The setters a receipt applies to the loaded order: invoices (when nothing
      is due any more), totals, state, status history and the capture. */
  method ApplyReceipt(order: SalesOrder, pushResponse: GatewayResponse, backend: Backend)
    requires order.payment.Some?
    modifies order, backend`effects
    ensures order.Record() == Receipt(old(order.Record()), pushResponse)
    ensures backend.effects == old(backend.effects) +
              (if old(order.Record()).TotalDue() - pushResponse.amount <= 0 then InvoiceSaves(old(order.invoices)) else [])
  {
    var paidAmount := pushResponse.amount;
    var dueLeft := order.Record().TotalDue() - paidAmount;

    var state := Processing;
    var comment := PurchaseComplete;
    if dueLeft > 0 {
      state := PaymentReview;
      comment := PartlyPaid(pushResponse.amount, pushResponse.currency);
    }

    if dueLeft <= 0 {
      MarkInvoicesPaid(order, backend);
    }

    order.totalPaid := order.totalPaid + paidAmount;
    order.baseTotalPaid := order.baseTotalPaid + paidAmount;
    order.state := state;
    order.history := order.history + [HistoryEntry(comment, state)];

    var payment := order.payment.value;
    payment := payment.(transactionId := pushResponse.paymentReferenceId);
    payment := payment.(parentTransactionId := pushResponse.referenceId);
    payment := payment.(isTransactionClosed := true);
    payment := payment.(transactions := payment.transactions +
      [PaymentTransaction(Capture, payment.transactionId, payment.parentTransactionId, payment.isTransactionClosed)]);
    order.payment := Some(payment);
  }

  /** Books an accepted receipt: the order's setters, the transaction table,
      then the save. */
  method Account(order: SalesOrder, pushResponse: GatewayResponse, backend: Backend) returns (outcome: PushOutcome)
    requires order.payment.Some?
    modifies order, backend`orders, backend`ledger, backend`effects
    ensures (backend.State(), outcome) == AcceptReceipt(old(backend.State()), old(order.Record()), pushResponse)
  {
    ApplyReceipt(order, pushResponse, backend);
    backend.ledger := backend.ledger + [LedgerRecord(pushResponse, PushChannel, map[])];
    SaveModel(order, backend);
    outcome := Accounted(order.state);
  }

  /** Creates the order from the quote when the repository has none for the
      transaction. */
  method Materialise(quote: Quote, pushResponse: GatewayResponse, c: Collaborators, backend: Backend)
    returns (order: SalesOrder?)
    modifies backend`orders, backend`ledger, backend`effects
    ensures var (s, found) := OrderForPush(old(backend.State()), quote, pushResponse, c);
            backend.State() == s && (if order == null then found.None? else found == Some(order.Record()))
    ensures order != null ==> fresh(order)
  {
    var found := OrderHelper.FetchOrderByQuoteId(backend.orders, pushResponse.transactionId);
    if found.Some? && found.value.entityId != 0 {
      order := new SalesOrder.Load(found.value);
      return;
    }
    backend.ledger := backend.ledger + [LedgerRecord(pushResponse, PushChannel, pushResponse.fields)];
    var creation := c.createOrderFromQuote(quote);
    if !creation.Created? || creation.order.entityId == 0 {
      backend.effects := backend.effects + [Logged(PushCreationFailed(pushResponse.transactionId))];
      return null;
    }
    order := new SalesOrder.Load(creation.order);
    order.state := c.mapStatus(pushResponse.fields, order.Record());
    OrderHelper.HandleOrderMail(order, c.orderSenderThrows, backend);
    OrderHelper.HandleInvoiceMails(order, c.canSendNewInvoiceEmail, backend);
    SaveModel(order, backend);
  }

  /** Push::execute. */
  method Execute(req: PushRequest, c: Collaborators, backend: Backend) returns (outcome: PushOutcome)
    modifies backend
    ensures (backend.State(), outcome) == PushSpec(old(backend.State()), req, c)
  {
    if !req.isPost {
      return NotPost;
    }
    if req.contentType != "application/xml" {
      backend.effects := backend.effects + [Logged(PushContentTypeNotXml)];
    }
    if req.timestamp != "" && req.retries != "" {
      backend.effects := backend.effects + [Logged(PushHeaders(req.timestamp, req.retries))];
    }
    assert backend.effects == old(backend.effects) + HeaderNotices(req);
    if req.parsed.None? {
      backend.effects := backend.effects + [Logged(PushParseFailed)];
      return ParseFailed;
    }
    var pushResponse := req.parsed.value;
    var (paymentMethod, paymentType) := c.splitPaymentCode(pushResponse.paymentCode);
    if !(pushResponse.outcome == Success && c.isNewOrderType(paymentType)) {
      return Skipped;
    }
    var transactionId := pushResponse.transactionId;
    if transactionId !in backend.quotes {
      return QuoteMissing;
    }
    var quote := backend.quotes[transactionId];
    var order := Materialise(quote, pushResponse, c, backend);
    if order == null {
      return CreationFailed;
    }
    backend.effects := backend.effects + [AdditionalInfoHandled(transactionId)];

    if !c.isReceiptAble(paymentMethod, paymentType) {
      return NotReceiptAble;
    }
    if order.payment.None? {
      return NoPayment;
    }
    if !order.payment.value.instance.HeidelpayMethod? {
      return ForeignMethod;
    }
    var uniqueId := pushResponse.paymentReferenceId;
    var transactionExists := TransactionExists(backend.ledger, uniqueId);
    if transactionExists {
      backend.effects := backend.effects + [Logged(PushDuplicate(uniqueId))];
      return Duplicate;
    }
    outcome := Account(order, pushResponse, backend);
  }

  // ---------------------------------------------------------------------------
  // Properties

  /** A push never touches quotes or stored payment information, and it only
      appends to the transaction table and to the effects. */
  lemma PushFrame(s: Store, req: PushRequest, c: Collaborators)
    ensures var (r, _) := PushSpec(s, req, c);
            r.quotes == s.quotes && r.paymentInfo == s.paymentInfo &&
            s.ledger <= r.ledger && s.effects <= r.effects
  {
    if req.isPost {
      var s1 := s.(effects := s.effects + HeaderNotices(req));
      if req.parsed.Some? {
        HandlePushFrame(s1, req.parsed.value, c);
      }
    }
  }

  lemma HandlePushFrame(s: Store, resp: GatewayResponse, c: Collaborators)
    ensures var (r, _) := HandlePush(s, resp, c);
            r.quotes == s.quotes && r.paymentInfo == s.paymentInfo &&
            s.ledger <= r.ledger && s.effects <= r.effects
  {
    if resp.transactionId in s.quotes {
      var (s2, order) := OrderForPush(s, s.quotes[resp.transactionId], resp, c);
      OrderForPushFrame(s, s.quotes[resp.transactionId], resp, c);
      if order.Some? {
        var s3 := s2.(effects := s2.effects + [AdditionalInfoHandled(resp.transactionId)]);
        BookOrderFrame(s3, order.value, resp, c.isReceiptAble(c.splitPaymentCode(resp.paymentCode).0, c.splitPaymentCode(resp.paymentCode).1));
      }
    }
  }

  lemma BookOrderFrame(s: Store, o: OrderRecord, resp: GatewayResponse, receiptAble: bool)
    ensures var (r, _) := BookOrder(s, o, resp, receiptAble);
            r.quotes == s.quotes && r.paymentInfo == s.paymentInfo &&
            s.ledger <= r.ledger && s.effects <= r.effects
  {
    if o.payment.Some? {
      AcceptReceiptFrame(s, o, resp);
    }
  }

  lemma OrderForPushFrame(s: Store, quote: Quote, resp: GatewayResponse, c: Collaborators)
    ensures var (r, _) := OrderForPush(s, quote, resp, c);
            r.quotes == s.quotes && r.paymentInfo == s.paymentInfo &&
            s.ledger <= r.ledger && s.effects <= r.effects
  {
  }

  lemma AcceptReceiptFrame(s: Store, o: OrderRecord, resp: GatewayResponse)
    requires o.payment.Some?
    ensures var (r, _) := AcceptReceipt(s, o, resp);
            r.quotes == s.quotes && r.paymentInfo == s.paymentInfo &&
            s.ledger <= r.ledger && s.effects <= r.effects
  {
  }

  /** The advisory headers only add log lines: a push with any content type and
      any retry headers ends as the same push with an XML content type and no
      headers, with the same orders and transaction table. */
  lemma HeadersAreAdvisory(s: Store, req: PushRequest, c: Collaborators)
    ensures var plain := req.(contentType := "application/xml", timestamp := "", retries := "");
            var (r, outcome) := PushSpec(s, req, c);
            var (r', outcome') := PushSpec(s, plain, c);
            outcome == outcome' && r.orders == r'.orders && r.ledger == r'.ledger
  {
    if req.isPost && req.parsed.Some? {
      var s1 := s.(effects := s.effects + HeaderNotices(req));
      var s1' := s.(effects := s.effects + HeaderNotices(req.(contentType := "application/xml", timestamp := "", retries := "")));
      HandlePushIgnoresEffects(s1, s1'.effects, req.parsed.value, c);
      assert s1' == s1.(effects := s1'.effects);
    }
  }

  /** The effects logged so far do not influence how a parsed push is handled. */
  lemma HandlePushIgnoresEffects(s: Store, effects: seq<Effect>, resp: GatewayResponse, c: Collaborators)
    ensures var (r, outcome) := HandlePush(s, resp, c);
            var (r', outcome') := HandlePush(s.(effects := effects), resp, c);
            outcome == outcome' && r.orders == r'.orders && r.ledger == r'.ledger
  {
    var t := s.(effects := effects);
    var (paymentMethod, paymentType) := c.splitPaymentCode(resp.paymentCode);
    if resp.outcome == Success && c.isNewOrderType(paymentType) && resp.transactionId in s.quotes {
      var quote := s.quotes[resp.transactionId];
      OrderForPushIgnoresEffects(s, effects, quote, resp, c);
      var (s2, order) := OrderForPush(s, quote, resp, c);
      var (t2, order') := OrderForPush(t, quote, resp, c);
      if order.Some? {
        var s3 := s2.(effects := s2.effects + [AdditionalInfoHandled(resp.transactionId)]);
        var t3 := t2.(effects := t2.effects + [AdditionalInfoHandled(resp.transactionId)]);
        BookOrderIgnoresEffects(s3, t3, order.value, resp, c.isReceiptAble(paymentMethod, paymentType));
      }
    }
  }

  lemma BookOrderIgnoresEffects(s: Store, t: Store, o: OrderRecord, resp: GatewayResponse, receiptAble: bool)
    requires s.orders == t.orders && s.ledger == t.ledger
    ensures var (r, outcome) := BookOrder(s, o, resp, receiptAble);
            var (r', outcome') := BookOrder(t, o, resp, receiptAble);
            outcome == outcome' && r.orders == r'.orders && r.ledger == r'.ledger
  {
    if o.payment.Some? {
      AcceptReceiptIgnoresEffects(s, t, o, resp);
    }
  }

  lemma AcceptReceiptIgnoresEffects(s: Store, t: Store, o: OrderRecord, resp: GatewayResponse)
    requires o.payment.Some? && s.orders == t.orders && s.ledger == t.ledger
    ensures var (r, outcome) := AcceptReceipt(s, o, resp);
            var (r', outcome') := AcceptReceipt(t, o, resp);
            outcome == outcome' && r.orders == r'.orders && r.ledger == r'.ledger
  {
  }

  lemma OrderForPushIgnoresEffects(s: Store, effects: seq<Effect>, quote: Quote, resp: GatewayResponse, c: Collaborators)
    ensures var (r, order) := OrderForPush(s, quote, resp, c);
            var (r', order') := OrderForPush(s.(effects := effects), quote, resp, c);
            order == order' && r.orders == r'.orders && r.ledger == r'.ledger
  {
  }

  /** Orders and the transaction table change only for a POSTed, parsed,
      successful push of a new-order payment type whose quote exists. */
  lemma OnlySuccessfulNewOrderPushesChangeOrders(s: Store, req: PushRequest, c: Collaborators)
    ensures var (r, _) := PushSpec(s, req, c);
            r.orders != s.orders || r.ledger != s.ledger ==>
              req.isPost && req.parsed.Some? &&
              var resp := req.parsed.value;
              resp.outcome == Success && c.isNewOrderType(c.splitPaymentCode(resp.paymentCode).1) &&
              resp.transactionId in s.quotes
  {
  }

  /** A push whose payment reference id is already in the transaction table is
      never booked; when the order already exists, neither the orders nor the
      table change. */
  lemma {:induction false} KnownReferenceNeverAccounted(s: Store, req: PushRequest, c: Collaborators)
    requires req.parsed.Some? && TransactionExists(s.ledger, req.parsed.value.paymentReferenceId)
    ensures var (r, outcome) := PushSpec(s, req, c);
            !outcome.Accounted? &&
            (var found := OrderHelper.FetchOrderByQuoteId(s.orders, req.parsed.value.transactionId);
             found.Some? && found.value.entityId != 0 ==>
               r.orders == s.orders && r.ledger == s.ledger)
  {
    var resp := req.parsed.value;
    var id := resp.paymentReferenceId;
    var i :| 0 <= i < |s.ledger| && s.ledger[i].uniqueId == id;
    var grown := s.ledger + [LedgerRecord(resp, PushChannel, resp.fields)];
    assert grown[i].uniqueId == id;
  }

  /** What a booked push did: it found a stored order for the quote (so an order
      created by this same push is never booked, its reference id having just
      been recorded), the method is receipt-able, the order has a payment, the
      reference id was new; the order was replaced by its receipt and the
      reference id recorded. */
  lemma {:induction false} AccountedPush(s: Store, req: PushRequest, c: Collaborators)
    requires PushSpec(s, req, c).1.Accounted?
    ensures req.isPost && req.parsed.Some?
    ensures var resp := req.parsed.value;
            var found := OrderHelper.FetchOrderByQuoteId(s.orders, resp.transactionId);
            var (r, outcome) := PushSpec(s, req, c);
            found.Some? && found.value.entityId != 0 && found.value.payment.Some? &&
            OrderHelper.HasHeidelpayPayment(found.value) &&
            c.isReceiptAble(c.splitPaymentCode(resp.paymentCode).0, c.splitPaymentCode(resp.paymentCode).1) &&
            !TransactionExists(s.ledger, resp.paymentReferenceId) &&
            r.orders == SaveOrder(s.orders, Receipt(found.value, resp)) &&
            r.ledger == s.ledger + [LedgerRecord(resp, PushChannel, map[])] &&
            outcome == Accounted(Receipt(found.value, resp).state)
  {
    var resp := req.parsed.value;
    var found := OrderHelper.FetchOrderByQuoteId(s.orders, resp.transactionId);
    if found.None? || found.value.entityId == 0 {
      RecordedTransactionExists(s.ledger, resp, PushChannel, resp.fields);
    }
  }

  /** After a booked push the repository returns the receipt for the quote. */
  lemma {:induction false} AccountedOrderIsFetched(s: Store, req: PushRequest, c: Collaborators)
    requires PushSpec(s, req, c).1.Accounted?
    ensures req.parsed.Some?
    ensures var resp := req.parsed.value;
            var found := OrderHelper.FetchOrderByQuoteId(s.orders, resp.transactionId);
            found.Some? && found.value.payment.Some? &&
            OrderHelper.FetchOrderByQuoteId(PushSpec(s, req, c).0.orders, resp.transactionId) ==
              Some(Receipt(found.value, resp))
  {
    AccountedPush(s, req, c);
    var resp := req.parsed.value;
    var found := OrderHelper.FetchOrderByQuoteId(s.orders, resp.transactionId).value;
    var i :| 0 <= i < |s.orders| && s.orders[i] == found && found.quoteId == resp.transactionId &&
             OrderHelper.NoneAfter(s.orders, resp.transactionId, i);
    OrderHelper.FetchAfterSave(s.orders, resp.transactionId, found, Receipt(found, resp));
  }

  /** Delivering the same booked push a second time is recognised as a
      duplicate and changes neither the orders nor the transaction table. */
  lemma {:induction false} ReplayIsDuplicate(s: Store, req: PushRequest, c: Collaborators)
    requires PushSpec(s, req, c).1.Accounted?
    ensures var (r, _) := PushSpec(s, req, c);
            var (r', outcome') := PushSpec(r, req, c);
            outcome' == Duplicate && r'.orders == r.orders && r'.ledger == r.ledger
  {
    AccountedPush(s, req, c);
    AccountedOrderIsFetched(s, req, c);
    var resp := req.parsed.value;
    RecordedTransactionExists(s.ledger, resp, PushChannel, map[]);
  }

  /** A push that is not a POST changes nothing. */
  lemma NonPostChangesNothing(s: Store, req: PushRequest, c: Collaborators)
    requires !req.isPost
    ensures PushSpec(s, req, c) == (s, NotPost)
  {
  }

  /** The effects logged so far do not influence how a push is handled. */
  lemma PushSpecIgnoresEffects(s: Store, effects: seq<Effect>, req: PushRequest, c: Collaborators)
    ensures var (r, outcome) := PushSpec(s, req, c);
            var (r', outcome') := PushSpec(s.(effects := effects), req, c);
            outcome == outcome' && r.orders == r'.orders && r.ledger == r'.ledger
  {
    if req.isPost && req.parsed.Some? {
      var s1 := s.(effects := s.effects + HeaderNotices(req));
      var t1 := s.(effects := effects + HeaderNotices(req));
      assert t1 == s1.(effects := t1.effects);
      HandlePushIgnoresEffects(s1, t1.effects, req.parsed.value, c);
    }
  }

  /** A stored order of the quote is used as it is: nothing is recorded and
      nothing created. */
  lemma StoredOrderUsedAsIs(s: Store, quote: Quote, resp: GatewayResponse, c: Collaborators)
    requires var found := OrderHelper.FetchOrderByQuoteId(s.orders, resp.transactionId);
             found.Some? && found.value.entityId != 0
    ensures OrderForPush(s, quote, resp, c) == (s, OrderHelper.FetchOrderByQuoteId(s.orders, resp.transactionId))
  {
  }

  /** When the quote already has a stored order, a push never re-creates it:
      orders and transaction table change only when the receipt is booked. */
  lemma {:induction false} StoredOrderNeverRecreated(s: Store, req: PushRequest, c: Collaborators)
    requires req.parsed.Some?
    requires var found := OrderHelper.FetchOrderByQuoteId(s.orders, req.parsed.value.transactionId);
             found.Some? && found.value.entityId != 0
    ensures var (r, outcome) := PushSpec(s, req, c);
            outcome != CreationFailed &&
            (outcome.Accounted? || (r.orders == s.orders && r.ledger == s.ledger))
  {
    var resp := req.parsed.value;
    if req.isPost && resp.transactionId in s.quotes {
      var s1 := s.(effects := s.effects + HeaderNotices(req));
      StoredOrderUsedAsIs(s1, s.quotes[resp.transactionId], resp, c);
    }
  }

  /** A push whose quote has no order yet records itself, creates the order,
      and saves it mapped, so that the next lookup for the quote finds it; the
      push itself is not booked. */
  lemma {:induction false} MissingOrderIsCreated(s: Store, req: PushRequest, c: Collaborators)
    requires req.isPost && req.parsed.Some?
    requires var resp := req.parsed.value;
             resp.outcome == Success && c.isNewOrderType(c.splitPaymentCode(resp.paymentCode).1) &&
             resp.transactionId in s.quotes && CreatesOrderForQuote(c, s.quotes, resp.transactionId) &&
             OrderHelper.FetchOrderByQuoteId(s.orders, resp.transactionId).None?
    requires var creation := c.createOrderFromQuote(s.quotes[req.parsed.value.transactionId]);
             creation.Created? && creation.order.entityId != 0
    ensures var resp := req.parsed.value;
            var o := Mapped(c.createOrderFromQuote(s.quotes[resp.transactionId]).order, resp, c);
            var (r, outcome) := PushSpec(s, req, c);
            r.orders == SaveOrder(s.orders, o) &&
            OrderHelper.FetchOrderByQuoteId(r.orders, resp.transactionId) == Some(o) &&
            r.ledger == s.ledger + [LedgerRecord(resp, PushChannel, resp.fields)] &&
            !outcome.Accounted?
  {
    var resp := req.parsed.value;
    var quote := s.quotes[resp.transactionId];
    var o := Mapped(c.createOrderFromQuote(quote).order, resp, c);
    var s1 := s.(effects := s.effects + HeaderNotices(req));
    OrderForPushCreates(s1, quote, resp, c);
    var (s2, order) := OrderForPush(s1, quote, resp, c);
    var s3 := s2.(effects := s2.effects + [AdditionalInfoHandled(resp.transactionId)]);
    RecordedTransactionExists(s.ledger, resp, PushChannel, resp.fields);
    var (paymentMethod, paymentType) := c.splitPaymentCode(resp.paymentCode);
    BookOrderKnownReference(s3, o, resp, c.isReceiptAble(paymentMethod, paymentType));
    OrderHelper.SaveFirstOfQuote(s.orders, resp.transactionId, o);
  }

  /** Without a stored order, a successful creation is recorded and saved. */
  lemma OrderForPushCreates(s: Store, quote: Quote, resp: GatewayResponse, c: Collaborators)
    requires OrderHelper.FetchOrderByQuoteId(s.orders, resp.transactionId).None?
    requires c.createOrderFromQuote(quote).Created? && c.createOrderFromQuote(quote).order.entityId != 0
    ensures var o := Mapped(c.createOrderFromQuote(quote).order, resp, c);
            var (r, order) := OrderForPush(s, quote, resp, c);
            order == Some(o) && r.orders == SaveOrder(s.orders, o) &&
            r.ledger == s.ledger + [LedgerRecord(resp, PushChannel, resp.fields)]
  {
  }

  /** With its reference id already recorded, the order is not booked and
      neither the orders nor the transaction table change. */
  lemma BookOrderKnownReference(s: Store, o: OrderRecord, resp: GatewayResponse, receiptAble: bool)
    requires TransactionExists(s.ledger, resp.paymentReferenceId)
    ensures var (r, outcome) := BookOrder(s, o, resp, receiptAble);
            r.orders == s.orders && r.ledger == s.ledger && !outcome.Accounted?
  {
  }

  /** The order of a quote is materialised at most once: once a push got its
      order (found or created), delivering it again changes neither the orders
      nor the transaction table. */
  lemma {:induction false} MaterialisedOnce(s: Store, req: PushRequest, c: Collaborators)
    requires req.parsed.Some? ==> CreatesOrderForQuote(c, s.quotes, req.parsed.value.transactionId)
    requires req.parsed.Some? ==>
               var found := OrderHelper.FetchOrderByQuoteId(s.orders, req.parsed.value.transactionId);
               found.Some? ==> found.value.entityId != 0
    requires PushSpec(s, req, c).1 != CreationFailed
    ensures var (r, _) := PushSpec(s, req, c);
            var (r', _) := PushSpec(r, req, c);
            r'.orders == r.orders && r'.ledger == r.ledger
  {
    var (r, outcome) := PushSpec(s, req, c);
    if !req.isPost || req.parsed.None? {
      PushSpecIgnoresEffects(s, r.effects, req, c);
      assert r == s.(effects := r.effects);
    } else {
      var resp := req.parsed.value;
      var found := OrderHelper.FetchOrderByQuoteId(s.orders, resp.transactionId);
      var (paymentMethod, paymentType) := c.splitPaymentCode(resp.paymentCode);
      if !(resp.outcome == Success && c.isNewOrderType(paymentType)) || resp.transactionId !in s.quotes {
        PushSpecIgnoresEffects(s, r.effects, req, c);
        assert r == s.(effects := r.effects);
      } else if outcome.Accounted? {
        ReplayIsDuplicate(s, req, c);
      } else if found.Some? {
        StoredOrderNeverRecreated(s, req, c);
        PushFrame(s, req, c);
        PushSpecIgnoresEffects(s, r.effects, req, c);
        assert r == s.(effects := r.effects);
      } else {
        MissingOrderIsCreated(s, req, c);
        RecordedTransactionExists(s.ledger, resp, PushChannel, resp.fields);
        assert TransactionExists(r.ledger, resp.paymentReferenceId);
        KnownReferenceNeverAccounted(r, req, c);
      }
    }
  }

  /** Booking saves the receipt under the order's own entity id and quote, so it
      keeps the entity id a primary key and touches no other quote's orders. */
  lemma BookOrderKeepsOtherQuotes(s: Store, o: OrderRecord, resp: GatewayResponse, receiptAble: bool)
    requires KeyedByEntityId(s.orders) && OrderHelper.IdBelongsToQuote(s.orders, o.entityId, o.quoteId)
    ensures var (r, _) := BookOrder(s, o, resp, receiptAble);
            KeyedByEntityId(r.orders) &&
            forall q :: q != o.quoteId ==>
              OrderHelper.FetchOrdersByQuoteId(r.orders, q) == OrderHelper.FetchOrdersByQuoteId(s.orders, q)
  {
    if receiptAble && o.payment.Some? && o.payment.value.instance.HeidelpayMethod? &&
       !TransactionExists(s.ledger, resp.paymentReferenceId) {
      OrderHelper.SaveKeepsOtherQuotes(s.orders, Receipt(o, resp));
    }
  }

  /** Getting the order keeps the entity id a primary key and touches no other
      quote's orders; the order returned belongs to the pushed quote, and so does
      every stored order with its entity id. */
  lemma OrderForPushKeepsOtherQuotes(s: Store, resp: GatewayResponse, c: Collaborators)
    requires resp.transactionId in s.quotes && KeyedByEntityId(s.orders)
    requires CreatesOrderForQuote(c, s.quotes, resp.transactionId)
    requires CreatesNewOrder(c, s.quotes, s.orders, resp.transactionId)
    ensures var (r, order) := OrderForPush(s, s.quotes[resp.transactionId], resp, c);
            KeyedByEntityId(r.orders) &&
            (order.Some? ==> order.value.quoteId == resp.transactionId &&
                             OrderHelper.IdBelongsToQuote(r.orders, order.value.entityId, resp.transactionId)) &&
            forall q :: q != resp.transactionId ==>
              OrderHelper.FetchOrdersByQuoteId(r.orders, q) == OrderHelper.FetchOrdersByQuoteId(s.orders, q)
  {
    var found := OrderHelper.FetchOrderByQuoteId(s.orders, resp.transactionId);
    if !(found.Some? && found.value.entityId != 0) {
      var creation := c.createOrderFromQuote(s.quotes[resp.transactionId]);
      if creation.Created? && creation.order.entityId != 0 {
        OrderHelper.SaveKeepsOtherQuotes(s.orders, Mapped(creation.order, resp, c));
      }
    }
  }

  /** A push keeps the entity id a primary key and never changes, deletes or
      replaces an order of any quote other than the one it names. */
  lemma {:induction false} PushKeepsOtherQuotes(s: Store, req: PushRequest, c: Collaborators)
    requires KeyedByEntityId(s.orders)
    requires req.parsed.Some? ==>
               CreatesOrderForQuote(c, s.quotes, req.parsed.value.transactionId) &&
               CreatesNewOrder(c, s.quotes, s.orders, req.parsed.value.transactionId)
    ensures var (r, _) := PushSpec(s, req, c);
            KeyedByEntityId(r.orders) &&
            forall q :: (req.parsed.None? || q != req.parsed.value.transactionId) ==>
              OrderHelper.FetchOrdersByQuoteId(r.orders, q) == OrderHelper.FetchOrdersByQuoteId(s.orders, q)
  {
    if req.isPost && req.parsed.Some? {
      var resp := req.parsed.value;
      var s1 := s.(effects := s.effects + HeaderNotices(req));
      var (paymentMethod, paymentType) := c.splitPaymentCode(resp.paymentCode);
      if resp.outcome == Success && c.isNewOrderType(paymentType) && resp.transactionId in s.quotes {
        OrderForPushKeepsOtherQuotes(s1, resp, c);
        var (s2, order) := OrderForPush(s1, s.quotes[resp.transactionId], resp, c);
        if order.Some? {
          var s3 := s2.(effects := s2.effects + [AdditionalInfoHandled(resp.transactionId)]);
          BookOrderKeepsOtherQuotes(s3, order.value, resp, c.isReceiptAble(paymentMethod, paymentType));
        }
      }
    }
  }

  /** Pushes delivered one after another: the final store and each push's outcome. */
  function PushRun(s: Store, reqs: seq<PushRequest>, c: Collaborators): (run: (Store, seq<PushOutcome>))
    ensures |run.1| == |reqs|
    decreases |reqs|
  {
    if reqs == [] then (s, [])
    else
      var (s1, outcome) := PushSpec(s, reqs[0], c);
      var (last, outcomes) := PushRun(s1, reqs[1..], c);
      (last, [outcome] + outcomes)
  }

  /** The payment reference id of a parsed push. */
  function Reference(req: PushRequest): Option<string>
  {
    if req.parsed.Some? then Some(req.parsed.value.paymentReferenceId) else None
  }

  /** A table entry is never lost by later pushes. */
  lemma {:induction false} KnownReferenceStaysKnown(s: Store, req: PushRequest, c: Collaborators, id: string)
    requires TransactionExists(s.ledger, id)
    ensures TransactionExists(PushSpec(s, req, c).0.ledger, id)
  {
    PushFrame(s, req, c);
    var i :| 0 <= i < |s.ledger| && s.ledger[i].uniqueId == id;
    assert PushSpec(s, req, c).0.ledger[i] == s.ledger[i];
  }

  /** Once a reference id is in the table, no push of a run books it. */
  lemma {:induction false} KnownReferenceNeverAccountedInRun(s: Store, reqs: seq<PushRequest>, c: Collaborators, id: string)
    requires TransactionExists(s.ledger, id)
    ensures forall k :: 0 <= k < |reqs| && PushRun(s, reqs, c).1[k].Accounted? ==> Reference(reqs[k]) != Some(id)
    decreases |reqs|
  {
    if reqs != [] {
      var (s1, outcome) := PushSpec(s, reqs[0], c);
      if Reference(reqs[0]) == Some(id) {
        KnownReferenceNeverAccounted(s, reqs[0], c);
      }
      KnownReferenceStaysKnown(s, reqs[0], c, id);
      KnownReferenceNeverAccountedInRun(s1, reqs[1..], c, id);
      forall k | 1 <= k < |reqs| && PushRun(s, reqs, c).1[k].Accounted?
        ensures Reference(reqs[k]) != Some(id)
      {
        assert PushRun(s, reqs, c).1[k] == PushRun(s1, reqs[1..], c).1[k - 1];
        assert reqs[k] == reqs[1..][k - 1];
      }
    }
  }

  /** Exactly-once booking: in any run of pushes, two booked pushes never carry
      the same payment reference id. */
  lemma {:induction false} AtMostOneBookingPerReference(s: Store, reqs: seq<PushRequest>, c: Collaborators)
    ensures forall k :: 0 <= k < |reqs| && PushRun(s, reqs, c).1[k].Accounted? ==> Reference(reqs[k]).Some?
    ensures forall j, k :: 0 <= j < k < |reqs| && PushRun(s, reqs, c).1[j].Accounted? && PushRun(s, reqs, c).1[k].Accounted? ==>
              Reference(reqs[j]) != Reference(reqs[k])
    decreases |reqs|
  {
    if reqs != [] {
      var (s1, outcome) := PushSpec(s, reqs[0], c);
      var run := PushRun(s, reqs, c);
      var rest := PushRun(s1, reqs[1..], c);
      assert run.1 == [outcome] + rest.1;
      AtMostOneBookingPerReference(s1, reqs[1..], c);
      if outcome.Accounted? {
        AccountedPush(s, reqs[0], c);
        var resp := reqs[0].parsed.value;
        RecordedTransactionExists(s.ledger, resp, PushChannel, map[]);
        KnownReferenceNeverAccountedInRun(s1, reqs[1..], c, resp.paymentReferenceId);
      }
      forall j, k | 0 <= j < k < |reqs| && run.1[j].Accounted? && run.1[k].Accounted?
        ensures Reference(reqs[j]) != Reference(reqs[k])
      {
        assert run.1[k] == rest.1[k - 1] && reqs[k] == reqs[1..][k - 1];
        if j > 0 {
          assert run.1[j] == rest.1[j - 1] && reqs[j] == reqs[1..][j - 1];
        }
      }
      forall k | 0 <= k < |reqs| && run.1[k].Accounted?
        ensures Reference(reqs[k]).Some?
      {
        if k > 0 {
          assert run.1[k] == rest.1[k - 1] && reqs[k] == reqs[1..][k - 1];
        } else {
          AccountedPush(s, reqs[0], c);
        }
      }
    }
  }

  /** Paying the due amount in two instalments: the first leaves the order in
      payment review with its invoices untouched, the second completes it,
      marks the invoices paid, and the paid total grows by the sum. */
  lemma InstalmentsCompletePayment(o: OrderRecord, first: GatewayResponse, second: GatewayResponse)
    requires o.payment.Some? && o.totalPaid <= o.grandTotal
    requires 0 < first.amount < o.TotalDue() && first.amount + second.amount == o.TotalDue()
    ensures var partly := Receipt(o, first);
            var complete := Receipt(partly, second);
            partly.state == PaymentReview && partly.invoices == o.invoices &&
            complete.state == Processing && complete.TotalDue() == 0 &&
            complete.totalPaid == o.grandTotal &&
            forall i :: 0 <= i < |o.invoices| ==> complete.invoices[i].state == Paid
  {
  }
}
