/** The response controller: the gateway POSTs the result of a payment and
    expects the URL to send the customer to. A verified success turns the quote
    into an order; every other POST only answers the URL. */
module Response {
  import opened Sales
  import opened Gateway
  import opened Shop
  import OrderHelper

  /** An inbound response: method, the POST parameters, the SDK's parse of them
      (None when fromPost threw) and the caller's address. */
  datatype ResponseRequest = ResponseRequest(
    isPost: bool,
    params: map<string, string>,
    parsed: Option<GatewayResponse>,
    remoteAddr: string)

  /** What the controller answers: a raw body, a redirect, or an uncaught PHP
      error (a null order from creation). */
  datatype ControllerResult = Raw(contentType: string, contents: string) | Redirect(path: string) | Crashed

  /** The raw result built before any check: the redirect URL as plain text. */
  function UrlAnswer(c: Collaborators): ControllerResult
  {
    Raw("text/plain", c.redirectUrl)
  }

  // ---------------------------------------------------------------------------
  // Specification

  /** The response controller's own handleOrderMail: any order with an id gets
      the confirmation mail, whether or not it was already sent; a sender
      failure is only logged. */
  function ResponseOrderMail(order: OrderRecord, senderThrows: bool): (effects: seq<Effect>)
    ensures order.entityId != 0 && !senderThrows <==> effects == [OrderMail(order.incrementId)]
    ensures order.entityId != 0 && senderThrows <==> effects == [Logged(OrderMailFailed)]
    ensures order.entityId == 0 <==> effects == []
  {
    if order.entityId != 0 then
      if senderThrows then [Logged(OrderMailFailed)] else [OrderMail(order.incrementId)]
    else
      []
  }

  /** The key under which the quote's customer's payment information is stored. */
  function KeyOf(quote: Quote): CustomerKey
  {
    CustomerKey(quote.storeId, quote.email, quote.paymentMethod)
  }

  /** handleAdditionalPaymentInformation: a guest's stored payment information
      is deleted; no quote, a registered customer or nothing stored leaves the
      store as it is. */
  function ForgetGuestPaymentInfo(s: Store, quote: Option<Quote>): (r: Store)
    ensures quote.Some? && quote.value.customerIsGuest && KeyOf(quote.value) in s.paymentInfo ==>
              KeyOf(quote.value) !in r.paymentInfo &&
              (forall k :: k in s.paymentInfo && k != KeyOf(quote.value) ==> k in r.paymentInfo && r.paymentInfo[k] == s.paymentInfo[k]) &&
              r.effects == s.effects + [PaymentInfoDeleted(KeyOf(quote.value))]
    ensures !(quote.Some? && quote.value.customerIsGuest && KeyOf(quote.value) in s.paymentInfo) ==> r == s
    ensures r.orders == s.orders && r.quotes == s.quotes && r.ledger == s.ledger
    ensures r.paymentInfo.Keys <= s.paymentInfo.Keys
  {
    if quote.Some? && quote.value.customerIsGuest && KeyOf(quote.value) in s.paymentInfo then
      var key := KeyOf(quote.value);
      s.(paymentInfo := s.paymentInfo - {key}, effects := s.effects + [PaymentInfoDeleted(key)])
    else
      s
  }

  /** The order a verified success creates from `created`: mapped with the POST
      data extended by its increment id. */
  function MappedWithOrderId(created: OrderRecord, params: map<string, string>, c: Collaborators): OrderRecord
  {
    created.(state := c.mapStatus(params["ORDER_ID" := created.incrementId], created))
  }

  /** A verified successful response: the quote becomes an order, which is mapped,
      mailed and saved, and a guest's payment information is forgotten. */
  function AcceptSuccess(s: Store, params: map<string, string>, resp: GatewayResponse, c: Collaborators): (Store, ControllerResult)
  {
    if resp.transactionId !in s.quotes then (s.(effects := s.effects + [Logged(ResponseCreationFailed)]), UrlAnswer(c))
    else
      var quote := s.quotes[resp.transactionId];
      match c.createOrderFromQuote(quote)
      case Threw => (s.(effects := s.effects + [Logged(ResponseCreationFailed)]), UrlAnswer(c))
      case CreatedNull => (s, Crashed)
      case Created(created) =>
        var o := MappedWithOrderId(created, params, c);
        var saved := s.(orders := SaveOrder(s.orders, o),
                        effects := s.effects
                                   + ResponseOrderMail(o, c.orderSenderThrows)
                                   + OrderHelper.InvoiceMails(o, c.canSendNewInvoiceEmail)
                                   + [OrderSaved(o.entityId)]);
        (ForgetGuestPaymentInfo(saved, Some(quote)), UrlAnswer(c))
  }

  /** What one response does to the store, and what it answers. */
  function ResponseSpec(s: Store, req: ResponseRequest, c: Collaborators): (Store, ControllerResult)
  {
    if !req.isPost then (s.(effects := s.effects + [Logged(ResponseNotPost), CustomerError]), Redirect("checkout/cart/"))
    else if req.parsed.None? then (s.(effects := s.effects + [Logged(ResponseParseFailed)]), UrlAnswer(c))
    else
      var resp := req.parsed.value;
      if !c.verifySecurityHash(c.secret, resp.transactionId, resp) then
        (s.(effects := s.effects + [Logged(HashMismatch(req.remoteAddr, resp.secretHash))]), UrlAnswer(c))
      else
        var recorded := s.(ledger := s.ledger + [LedgerRecord(resp, ResponseChannel, req.params)]);
        match resp.outcome
        case Error => (recorded.(effects := recorded.effects + [Logged(ResponseNok)]), UrlAnswer(c))
        case Pending => (recorded, UrlAnswer(c))
        case Success => AcceptSuccess(recorded, req.params, resp, c)
  }

  // ---------------------------------------------------------------------------
  // The controller

  /** validateSecurityHash: the SDK's check with the shop secret; a mismatch is
      logged with the caller's address and the reference hash. */
  method ValidateSecurityHash(resp: GatewayResponse, remoteAddr: string, c: Collaborators, backend: Backend) returns (valid: bool)
    modifies backend`effects
    ensures valid == c.verifySecurityHash(c.secret, resp.transactionId, resp)
    ensures backend.effects == old(backend.effects) + (if valid then [] else [Logged(HashMismatch(remoteAddr, resp.secretHash))])
  {
    var secret := c.secret;
    var identificationTransactionId := resp.transactionId;
    valid := c.verifySecurityHash(secret, identificationTransactionId, resp);
    if !valid {
      backend.effects := backend.effects + [Logged(HashMismatch(remoteAddr, resp.secretHash))];
    }
  }

  /** The response controller's handleOrderMail. */
  method HandleOrderMail(order: SalesOrder, senderThrows: bool, backend: Backend)
    modifies backend`effects
    ensures backend.effects == old(backend.effects) + ResponseOrderMail(order.Record(), senderThrows)
  {
    if order.entityId != 0 {
      if senderThrows {
        backend.effects := backend.effects + [Logged(OrderMailFailed)];
      } else {
        backend.effects := backend.effects + [OrderMail(order.incrementId)];
      }
    }
  }

  /** handleAdditionalPaymentInformation: deletes a guest's stored record. */
  method HandleAdditionalPaymentInformation(quote: Option<Quote>, backend: Backend)
    modifies backend`paymentInfo, backend`effects
    ensures backend.State() == ForgetGuestPaymentInfo(old(backend.State()), quote)
  {
    if quote.Some? && quote.value.customerIsGuest {
      var key := KeyOf(quote.value);
      if key in backend.paymentInfo {
        backend.paymentInfo := backend.paymentInfo - {key};
        backend.effects := backend.effects + [PaymentInfoDeleted(key)];
      }
    }
  }

  /** Response::execute. */
  method Execute(req: ResponseRequest, c: Collaborators, backend: Backend) returns (result: ControllerResult)
    modifies backend
    ensures (backend.State(), result) == ResponseSpec(old(backend.State()), req, c)
  {
    var redirectUrl := c.redirectUrl;
    result := Raw("text/plain", redirectUrl);

    if !req.isPost {
      backend.effects := backend.effects + [Logged(ResponseNotPost), CustomerError];
      return Redirect("checkout/cart/");
    }

    if req.parsed.None? {
      backend.effects := backend.effects + [Logged(ResponseParseFailed)];
      return result;
    }
    var heidelpayResponse := req.parsed.value;

    var valid := ValidateSecurityHash(heidelpayResponse, req.remoteAddr, c, backend);
    if !valid {
      return result;
    }
    assert backend.effects == old(backend.effects);

    var quote: Option<Quote> := None;
    var data := req.params;
    backend.ledger := backend.ledger + [LedgerRecord(heidelpayResponse, ResponseChannel, data)];

    if heidelpayResponse.outcome == Error {
      backend.effects := backend.effects + [Logged(ResponseNok)];
      return result;
    }

    if heidelpayResponse.outcome == Success {
      var identificationTransactionId := heidelpayResponse.transactionId;
      if identificationTransactionId !in backend.quotes {
        backend.effects := backend.effects + [Logged(ResponseCreationFailed)];
        return result;
      }
      quote := Some(backend.quotes[identificationTransactionId]);
      var creation := c.createOrderFromQuote(quote.value);
      if creation.Threw? {
        backend.effects := backend.effects + [Logged(ResponseCreationFailed)];
        return result;
      }
      if creation.CreatedNull? {
        return Crashed;
      }
      var order := new SalesOrder.Load(creation.order);

      data := data["ORDER_ID" := order.incrementId];

      order.state := c.mapStatus(data, order.Record());
      HandleOrderMail(order, c.orderSenderThrows, backend);
      OrderHelper.HandleInvoiceMails(order, c.canSendNewInvoiceEmail, backend);

      backend.orders := SaveOrder(backend.orders, order.Record());
      backend.effects := backend.effects + [OrderSaved(order.entityId)];
    }

    HandleAdditionalPaymentInformation(quote, backend);
  }

  // ---------------------------------------------------------------------------
  // Properties

  /** A request that is not a POST is sent to the cart with the generic error
      message; nothing but the log and the message changes. */
  lemma NonPostGoesToCart(s: Store, req: ResponseRequest, c: Collaborators)
    requires !req.isPost
    ensures var (r, result) := ResponseSpec(s, req, c);
            result == Redirect("checkout/cart/") &&
            r == s.(effects := s.effects + [Logged(ResponseNotPost), CustomerError])
  {
  }

  /** Every POST is answered with the plain-text redirect URL, except when
      creation of the order of a verified success yields no order at all. */
  lemma PostAnswersRedirectUrl(s: Store, req: ResponseRequest, c: Collaborators)
    requires req.isPost
    ensures var (_, result) := ResponseSpec(s, req, c);
            result == Raw("text/plain", c.redirectUrl) ||
            (result == Crashed && req.parsed.Some? &&
             var resp := req.parsed.value;
             resp.outcome == Success && c.verifySecurityHash(c.secret, resp.transactionId, resp) &&
             resp.transactionId in s.quotes && c.createOrderFromQuote(s.quotes[resp.transactionId]) == CreatedNull)
  {
  }

  /** The transaction table grows by the response's record exactly when the
      response parsed and its hash verified; it is untouched otherwise. */
  lemma LedgerWrittenOnlyWhenVerified(s: Store, req: ResponseRequest, c: Collaborators)
    ensures var (r, _) := ResponseSpec(s, req, c);
            var verified := req.isPost && req.parsed.Some? &&
                            c.verifySecurityHash(c.secret, req.parsed.value.transactionId, req.parsed.value);
            (verified ==> r.ledger == s.ledger + [LedgerRecord(req.parsed.value, ResponseChannel, req.params)]) &&
            (!verified ==> r.ledger == s.ledger)
  {
  }

  /** No order is saved, no mail sent and no payment information deleted unless
      the response is a POST whose hash verified and whose outcome is success. */
  lemma {:induction false} NoOrderWorkUnlessVerifiedSuccess(s: Store, req: ResponseRequest, c: Collaborators)
    ensures var (r, _) := ResponseSpec(s, req, c);
            s.effects <= r.effects
    ensures var (r, _) := ResponseSpec(s, req, c);
            (r.orders != s.orders || r.paymentInfo != s.paymentInfo ||
             exists i :: |s.effects| <= i < |r.effects| && (r.effects[i].OrderMail? || r.effects[i].InvoiceMail? || r.effects[i].OrderSaved?)) ==>
              req.isPost && req.parsed.Some? &&
              var resp := req.parsed.value;
              resp.outcome == Success && c.verifySecurityHash(c.secret, resp.transactionId, resp)
  {
    var (r, _) := ResponseSpec(s, req, c);
    if !(req.isPost && req.parsed.Some? && req.parsed.value.outcome == Success &&
         c.verifySecurityHash(c.secret, req.parsed.value.transactionId, req.parsed.value)) {
      var added := r.effects[|s.effects|..];
      assert r.effects == s.effects + added;
      assert |added| <= 2;
      forall i | |s.effects| <= i < |r.effects|
        ensures !(r.effects[i].OrderMail? || r.effects[i].InvoiceMail? || r.effects[i].OrderSaved?)
      {
        assert r.effects[i] == added[i - |s.effects|];
      }
    }
  }

  /** A verified success whose quote yields an order saves exactly that order,
      mapped with ORDER_ID set to its increment id, and forgets a guest's
      payment information; a quote that is missing or whose conversion throws
      leaves the orders as they were. */
  lemma SuccessSavesCreatedOrder(s: Store, req: ResponseRequest, c: Collaborators)
    requires req.isPost && req.parsed.Some?
    requires var resp := req.parsed.value;
             resp.outcome == Success && c.verifySecurityHash(c.secret, resp.transactionId, resp)
    ensures var resp := req.parsed.value;
            var (r, result) := ResponseSpec(s, req, c);
            if resp.transactionId in s.quotes && c.createOrderFromQuote(s.quotes[resp.transactionId]).Created? then
              var quote := s.quotes[resp.transactionId];
              var created := c.createOrderFromQuote(quote).order;
              var o := created.(state := c.mapStatus(req.params["ORDER_ID" := created.incrementId], created));
              r.orders == SaveOrder(s.orders, o) && result == UrlAnswer(c) &&
              (quote.customerIsGuest ==> KeyOf(quote) !in r.paymentInfo)
            else
              r.orders == s.orders && r.paymentInfo == s.paymentInfo
  {
  }

  /** A response keeps the entity id a primary key and never changes, deletes
      or replaces an order of any quote other than the one it names. The order
      a verified success creates is added as a new row, under the next id when
      it has none. */
  lemma {:induction false} ResponseKeepsOtherQuotes(s: Store, req: ResponseRequest, c: Collaborators)
    requires KeyedByEntityId(s.orders)
    requires req.parsed.Some? ==>
               CreatesOrderForQuote(c, s.quotes, req.parsed.value.transactionId) &&
               CreatesNewOrder(c, s.quotes, s.orders, req.parsed.value.transactionId)
    ensures var (r, _) := ResponseSpec(s, req, c);
            KeyedByEntityId(r.orders) &&
            forall q :: (req.parsed.None? || q != req.parsed.value.transactionId) ==>
              OrderHelper.FetchOrdersByQuoteId(r.orders, q) == OrderHelper.FetchOrdersByQuoteId(s.orders, q)
    ensures req.isPost && req.parsed.Some? && req.parsed.value.transactionId in s.quotes ==>
              var resp := req.parsed.value;
              var creation := c.createOrderFromQuote(s.quotes[resp.transactionId]);
              resp.outcome == Success && c.verifySecurityHash(c.secret, resp.transactionId, resp) && creation.Created? ==>
                ResponseSpec(s, req, c).0.orders ==
                  s.orders + [Persisted(s.orders, MappedWithOrderId(creation.order, req.params, c))]
  {
    if req.isPost && req.parsed.Some? {
      var resp := req.parsed.value;
      if c.verifySecurityHash(c.secret, resp.transactionId, resp) && resp.outcome == Success && resp.transactionId in s.quotes {
        var creation := c.createOrderFromQuote(s.quotes[resp.transactionId]);
        if creation.Created? {
          var o := MappedWithOrderId(creation.order, req.params, c);
          OrderHelper.SaveKeepsOtherQuotes(s.orders, o);
          assert o.entityId == 0 || !exists i :: 0 <= i < |s.orders| && s.orders[i].entityId == o.entityId;
        }
      }
    }
  }

  /** The two order-mail rules differ: the response controller mails an order
      that is already marked as mailed, the order helper used by the push
      controller does not. */
  lemma OrderMailRulesDiffer(o: OrderRecord)
    requires o.entityId != 0 && o.emailSent
    ensures ResponseOrderMail(o, false) == [OrderMail(o.incrementId)]
    ensures OrderHelper.OrderMailEffects(Some(o), false) == []
  {
  }
}
