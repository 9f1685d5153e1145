/** The shop's persistent state as the handlers see it (order and quote
    repositories, the heidelpay transaction table, stored payment information)
    together with a log of outward effects, and the answers of collaborators
    whose code is not part of this model. */
module Shop {
  import opened Sales
  import opened Gateway

  /** Log lines the model keeps: the advisory header notices of the push channel
      and every error or security event. */
  datatype LogEvent =
    | PushContentTypeNotXml
    | PushHeaders(timestamp: string, retries: string)
    | PushParseFailed
    | PushCreationFailed(transactionId: string)
    | PushDuplicate(uniqueId: string)
    | ResponseNotPost
    | ResponseParseFailed
    | HashMismatch(remoteAddr: string, secretHash: string)
    | ResponseNok
    | ResponseCreationFailed
    | OrderMailFailed

  /** Key under which additional payment information of a customer is stored. */
  datatype CustomerKey = CustomerKey(storeId: nat, email: string, paymentMethod: string)

  datatype Effect =
    | Logged(event: LogEvent)
    | CustomerError                       // the generic "please contact us" message
    | OrderMail(incrementId: string)
    | InvoiceMail(invoiceId: nat)
    | InvoiceSaved(invoiceId: nat)
    | OrderSaved(entityId: nat)
    | AdditionalInfoHandled(quoteId: string)
    | PaymentInfoDeleted(key: CustomerKey)

  /** Everything the handlers can change, as one value. */
  datatype Store = Store(
    orders: seq<OrderRecord>,
    quotes: map<string, Quote>,
    ledger: seq<LedgerEntry>,
    paymentInfo: map<CustomerKey, string>,
    effects: seq<Effect>)

  /** createOrderFromQuote: an order (an empty order model has entity id 0), no
      order at all (null), or an exception. */
  datatype Creation = Created(order: OrderRecord) | CreatedNull | Threw

  /** Answers of the collaborators the handlers call but whose code is not part of
      this model: the payment helper's classifiers, order creation, status
      mapping, sales configuration, the order mail sender, the SDK's hash check
      and the URL builder. */
  datatype Collaborators = Collaborators(
    splitPaymentCode: string -> (string, string),
    isNewOrderType: string -> bool,
    isReceiptAble: (string, string) -> bool,
    createOrderFromQuote: Quote -> Creation,
    mapStatus: (map<string, string>, OrderRecord) -> OrderState,
    canSendNewInvoiceEmail: nat -> bool,
    orderSenderThrows: bool,
    secret: string,
    verifySecurityHash: (string, string, GatewayResponse) -> bool,
    redirectUrl: string)

  /** Magento's quote-to-order conversion, as the handlers rely on it: an order
      created from the quote stored under `id` carries `id` as its quote id. */
  predicate CreatesOrderForQuote(c: Collaborators, quotes: map<string, Quote>, id: string)
  {
    id in quotes && c.createOrderFromQuote(quotes[id]).Created? ==>
      c.createOrderFromQuote(quotes[id]).order.quoteId == id
  }

  /** A created order has an entity id no stored order carries yet, as Magento's
      quote-to-order conversion inserts a new order row. */
  predicate CreatesNewOrder(c: Collaborators, quotes: map<string, Quote>, orders: seq<OrderRecord>, id: string)
  {
    id in quotes && c.createOrderFromQuote(quotes[id]).Created? ==>
      forall i :: 0 <= i < |orders| ==> orders[i].entityId != c.createOrderFromQuote(quotes[id]).order.entityId
  }

  /** The entity id is the repository's primary key: every stored order has a
      non-zero one and no two stored orders share one. */
  predicate KeyedByEntityId(orders: seq<OrderRecord>)
  {
    (forall i :: 0 <= i < |orders| ==> orders[i].entityId != 0) &&
    (forall i, j :: 0 <= i < j < |orders| ==> orders[i].entityId != orders[j].entityId)
  }

  /** The id the repository assigns to the next new order: above every stored one. */
  function NextEntityId(orders: seq<OrderRecord>): (next: nat)
    ensures next != 0
    ensures forall i :: 0 <= i < |orders| ==> orders[i].entityId < next
  {
    if orders == [] then 1
    else
      var n := |orders| - 1;
      var before := NextEntityId(orders[..n]);
      assert forall i :: 0 <= i < n ==> orders[i] == orders[..n][i];
      if orders[n].entityId < before then before else orders[n].entityId + 1
  }

  /** OrderRepository::save: an order without an id (entity id 0) is inserted
      under the next id; the stored order with the same entity id is
      overwritten; an order with an id not stored yet is added at the end. */
  function SaveOrder(orders: seq<OrderRecord>, r: OrderRecord): seq<OrderRecord>
  {
    if r.entityId == 0 then
      orders + [r.(entityId := NextEntityId(orders))]
    else if exists i :: 0 <= i < |orders| && orders[i].entityId == r.entityId then
      seq(|orders|, i requires 0 <= i < |orders| => if orders[i].entityId == r.entityId then r else orders[i])
    else
      orders + [r]
  }

  /** The order as the save stores it: with the id the repository assigned when
      it had none. */
  function Persisted(orders: seq<OrderRecord>, r: OrderRecord): OrderRecord
  {
    if r.entityId == 0 then r.(entityId := NextEntityId(orders)) else r
  }

  /** The mutable store the controllers work against. */
  class Backend {
    var orders: seq<OrderRecord>
    var quotes: map<string, Quote>
    var ledger: seq<LedgerEntry>
    var paymentInfo: map<CustomerKey, string>
    var effects: seq<Effect>

    function State(): Store
      reads this
    {
      Store(orders, quotes, ledger, paymentInfo, effects)
    }

    constructor (s: Store)
      ensures State() == s
    {
      orders, quotes, ledger, paymentInfo, effects := s.orders, s.quotes, s.ledger, s.paymentInfo, s.effects;
    }
  }
}
