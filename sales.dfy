/** Magento sales entities that the payment-notification handlers read and update:
    orders with their invoices and payment, and quotes. */
module Sales {

  datatype Option<+T> = None | Some(value: T)

  /** Magento order states (Order::STATE_*). */
  datatype OrderState = New | PendingPayment | PaymentReview | Processing | Complete | Closed | Canceled | Holded

  /** Magento invoice states (Invoice::STATE_OPEN, STATE_PAID, STATE_CANCELED). */
  datatype InvoiceState = Open | Paid | Canceled

  datatype Invoice = Invoice(id: nat, state: InvoiceState)

  /** The method instance behind a payment: one of the heidelpay methods of this
      module (a HeidelpayAbstractPaymentMethod) or a method of another module. */
  datatype MethodInstance = HeidelpayMethod(code: string) | OtherMethod(code: string)

  datatype TransactionType = Capture

  /** A sales payment transaction as Payment::addTransaction records it. */
  datatype PaymentTransaction = PaymentTransaction(kind: TransactionType, txnId: string, parentTxnId: string, closed: bool)

  /** The order's payment; its transaction fields are those the next addTransaction uses. */
  datatype Payment = Payment(
    instance: MethodInstance,
    transactionId: string,
    parentTransactionId: string,
    isTransactionClosed: bool,
    transactions: seq<PaymentTransaction>)

  /** Status-history comments written by the push handler. The amount of a partial
      payment is kept as given, not as the formatted text. */
  datatype Comment = PurchaseComplete | PartlyPaid(amount: int, currency: string)

  datatype HistoryEntry = HistoryEntry(comment: Comment, state: OrderState)

  /** An order as the repository stores it. An entity id of 0 stands for "no id". */
  datatype OrderRecord = OrderRecord(
    entityId: nat,
    incrementId: string,
    quoteId: string,
    storeId: nat,
    emailSent: bool,
    canInvoice: bool,
    state: OrderState,
    grandTotal: int,
    totalPaid: int,
    baseTotalPaid: int,
    history: seq<HistoryEntry>,
    invoices: seq<Invoice>,
    payment: Option<Payment>)
  {
    /** Magento's due amount: the part of the grand total not yet paid, never negative. */
    function TotalDue(): int
    {
      if grandTotal - totalPaid > 0 then grandTotal - totalPaid else 0
    }
  }

  /** A quote (pending cart) as far as the handlers look at it. */
  datatype Quote = Quote(id: string, customerIsGuest: bool, storeId: nat, email: string, paymentMethod: string)

  /** A loaded order model: the handlers change it field by field through its setters. */
  class SalesOrder {
    var entityId: nat
    var incrementId: string
    var quoteId: string
    var storeId: nat
    var emailSent: bool
    var canInvoice: bool
    var state: OrderState
    var grandTotal: int
    var totalPaid: int
    var baseTotalPaid: int
    var history: seq<HistoryEntry>
    var invoices: seq<Invoice>
    var payment: Option<Payment>

    /** The stored form of the model's current fields. */
    function Record(): OrderRecord
      reads this
    {
      OrderRecord(entityId, incrementId, quoteId, storeId, emailSent, canInvoice, state,
                  grandTotal, totalPaid, baseTotalPaid, history, invoices, payment)
    }

    /** Loads the model from a stored order. */
    constructor Load(r: OrderRecord)
      ensures Record() == r
    {
      entityId, incrementId, quoteId, storeId := r.entityId, r.incrementId, r.quoteId, r.storeId;
      emailSent, canInvoice, state := r.emailSent, r.canInvoice, r.state;
      grandTotal, totalPaid, baseTotalPaid := r.grandTotal, r.totalPaid, r.baseTotalPaid;
      history, invoices, payment := r.history, r.invoices, r.payment;
    }
  }
}
