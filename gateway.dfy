/** The payment gateway's side: a parsed gateway response and the table of
    heidelpay transactions that the shop records from those responses. */
module Gateway {
  import opened Sales

  /** Processing result of a response: ACK (isSuccess), NOK (isError) or neither. */
  datatype Outcome = Success | Error | Pending

  /** A gateway response as the SDK parses it from a POST or a push document.
      `paymentReferenceId` is the unique id of this payment event, `referenceId`
      the id of the transaction it follows up, `transactionId` the shop's
      correlation key (the quote id). */
  datatype GatewayResponse = GatewayResponse(
    outcome: Outcome,
    paymentCode: string,
    transactionId: string,
    paymentReferenceId: string,
    referenceId: string,
    amount: int,
    currency: string,
    secretHash: string,
    fields: map<string, string>)

  datatype Channel = PushChannel | ResponseChannel

  /** One row of the heidelpay transaction table. */
  datatype LedgerEntry = LedgerEntry(
    uniqueId: string,
    transactionId: string,
    paymentCode: string,
    source: Channel,
    data: map<string, string>)

  /** The row saveHeidelpayTransaction writes for `resp`; it is keyed on the
      response's payment reference id, the id heidelpayTransactionExists looks up. */
  function LedgerRecord(resp: GatewayResponse, source: Channel, data: map<string, string>): (e: LedgerEntry)
    ensures e.uniqueId == resp.paymentReferenceId && e.source == source && e.data == data
  {
    LedgerEntry(resp.paymentReferenceId, resp.transactionId, resp.paymentCode, source, data)
  }

  /** heidelpayTransactionExists: some row carries this unique id. */
  predicate TransactionExists(ledger: seq<LedgerEntry>, uniqueId: string)
  {
    exists i :: 0 <= i < |ledger| && ledger[i].uniqueId == uniqueId
  }

  /** A row written for an id makes the existence check true from then on. */
  lemma RecordedTransactionExists(ledger: seq<LedgerEntry>, resp: GatewayResponse, source: Channel, data: map<string, string>)
    ensures TransactionExists(ledger + [LedgerRecord(resp, source, data)], resp.paymentReferenceId)
  {
    var extended := ledger + [LedgerRecord(resp, source, data)];
    assert extended[|ledger|].uniqueId == resp.paymentReferenceId;
  }
}
