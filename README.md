# heidelpay Magento 2 gateway: payment notifications in Dafny

This project models how the heidelpay payment module for Magento 2 handles the two
channels over which the payment server reports back to the shop, and proves
properties of that handling.

- **Push** (`Controller/Index/Push.php`). The server posts an XML push for a payment
  event. A successful push of a "new order" payment type gets its order: the stored
  order of the quote, or an order created from the quote. A receipt-able payment type
  is then booked on that order:
  - the due amount decides the state (payment review while something is due,
    processing otherwise);
  - every invoice is marked paid once nothing is due;
  - the paid totals grow by the amount, and a status comment is added;
  - the payment reference id is recorded in the heidelpay transaction table;
  - the payment gets a closed capture transaction.
  A push whose reference id is already in the table is not booked. It still gets its
  order, and creates it when missing, before the table is asked.
- **Response** (`Controller/Index/Response.php`). The server POSTs the result of a
  payment and expects the URL the customer is sent to next. The controller stops early
  on each of these: not a POST, an unparsable request, an invalid security hash, an
  error result. Only a verified success turns the quote into an order, which is mapped,
  mailed and saved; a guest's stored payment information is then deleted.
- **Order helper** (`Helper/Order.php`):
  - when order confirmation and invoice mails are sent;
  - which stored order belongs to a quote (the last one);
  - whether an order's payment belongs to this module.
- **Getter dump** (`Traits/DumpGetterReturnsTrait.php`). Every parameterless
  `get…`/`is…`/`has…` getter of an object is dumped into a string array. Keys are the
  snake_case property names (`getTransactionId` → `transaction_id`), sorted.

## How the model is built

- `sales.dfy`: the Magento entities the handlers touch.
  - An order is a value `OrderRecord`, as the repository stores it.
  - `SalesOrder` is the loaded order model, which the controllers change through its
    setters.
  - `TotalDue` is Magento's due amount: grand total minus total paid, never below zero.
- `gateway.dfy`: the parsed gateway response and the heidelpay transaction table.
  - A table row is keyed on the response's payment reference id.
  - `TransactionExists` looks rows up by that same id.
- `shop.dfy`: everything the controllers can change, as one `Store` value:
  - the order repository;
  - quotes;
  - the transaction table;
  - stored payment information;
  - a log of outward effects (log lines, mails, saves).

  The mutable `Backend` class holds the same fields. Collaborators whose code is not
  part of this model are given as their answers, in `Collaborators`:
  - the payment helper's classifiers;
  - order creation;
  - status mapping;
  - the sales configuration;
  - the SDK hash check;
  - the URL builder.
- `order_helper.dfy`: `Helper/Order.php`. The mail rules are pure functions with
  imperative methods proved against them. The last-order-of-a-quote lookup is proved
  stable under saving that order.
- `push.dfy` and `response.dfy`: each controller twice.
  - A pure function (`PushSpec`, `ResponseSpec`) says what one request does to the
    store and what it returns.
  - An imperative `Execute` follows the PHP method step by step, on a `Backend` and
    a `SalesOrder`, and is proved to end in exactly the state the function
    describes.
  - The properties are lemmas about the function.
- `dump.dfy`: the trait.
  - `PropertyFromGetter` is a pure string function.
  - `Dump` is the loop filling an ordered PHP array. The array is kept as its keys in
    order plus its values by key, and then `ksort`ed.

Amounts are exact integers (minor units), not PHP floats.

Two consequences of the code are proved about the model:
- **Creating the order suppresses its receipt.** When a push has to create its order,
  it records itself in the transaction table before creating the order
  (`Push.php:161`), and the duplicate guard at `Push.php:195` asks that table for the
  push's payment reference id. So that push never books its amount
  (`Push.AccountedPush`). This rests on an assumption listed under "Left out": the
  payment helper's `saveHeidelpayTransaction`, whose code is not part of this model,
  keys the row on the payment reference id, as the method instance's own save does.
- **The two order-mail rules differ.** The response controller mails any order that
  has an id. The order helper used by the push mails only orders not yet marked as
  mailed (`Response.OrderMailRulesDiffer`).

## Model

| member | source | states |
|---|---|---|
| Gateway.RecordedTransactionExists | Controller/Index/Push.php:233-239 | once a row is saved for a response, the existence check for the response's payment reference id is true |
| OrderHelper.InvoiceMails | Helper/Order.php:96-103 | when the order can no longer be invoiced and the store sends new-invoice mails, one mail per invoice in collection order; otherwise no mail. The response controller's own copy of this method (`Controller/Index/Response.php:267-276`) follows the same rule |
| OrderHelper.EachInvoiceMailedOnce | Helper/Order.php:100-102 | with distinct invoice ids, every invoice of the collection is mailed exactly once |
| OrderHelper.HandleInvoiceMails | Helper/Order.php:87-104 | the foreach over the invoice collection sends exactly the mails of the rule, in order, and changes nothing else |
| OrderHelper.OrderMailEffects | Helper/Order.php:110-119 | at most one effect. Nothing happens exactly when the guard fails: no order, no id, or already marked as mailed. When the guard holds, a working sender mails the order's confirmation and a failing sender always produces the logged error, and nothing else |
| OrderHelper.HandleOrderMail | Helper/Order.php:110-119 | the guarded send with the sender's exception caught; its effects are exactly those of the rule |
| OrderHelper.FetchOrdersByQuoteId | Helper/Order.php:138-145 | every order listed has the quote id, and every stored order with the quote id is listed; the list is empty exactly when no stored order has it |
| OrderHelper.FetchOrdersConcat | Helper/Order.php:138-145 | the collection keeps repository order: filtering two consecutive parts of the repository gives the first part's orders followed by the second's |
| OrderHelper.FetchOrderByQuoteId | Helper/Order.php:127-132 | nothing exactly when no stored order has the quote id; otherwise a stored order of the quote after which no order of that quote is stored (the last item) |
| OrderHelper.FetchAfterSave | Helper/Order.php:127-132 | after saving the fetched order again (same entity id, same quote), the lookup returns the saved version, carrying the id the save assigned when it had none |
| OrderHelper.SaveFirstOfQuote | Helper/Order.php:127-132 | saving the first order of a quote into a repository without one makes the quote's lookup return exactly that order, carrying the id the save assigned when it had none |
| OrderHelper.FetchOrdersPointwise | Helper/Order.php:138-145 | two repositories of the same length that agree at every position holding an order of the quote list the same orders for it |
| OrderHelper.SaveKeepsOtherQuotes | Controller/Index/Push.php:181 | when every stored order with the saved order's entity id belongs to its quote, the save keeps the entity id a primary key (non-zero, no two orders share one), every other quote lists exactly the orders it listed before, and the id the order is stored under belongs to its quote |
| Shop.NextEntityId | Controller/Index/Response.php:235 | the id a save gives an order that has none is non-zero and above every stored id, so it is new |
| OrderHelper.HasHeidelpayPayment | Helper/Order.php:153-167 | true exactly when the order has a payment whose method instance is a heidelpay method |
| Push.Receipt | Controller/Index/Push.php:203-245 | on an accepted receipt of `amount`, with `dueLeft` = the due amount minus `amount`: both paid totals grow by exactly `amount`. The state is payment review exactly when `dueLeft > 0` and processing exactly when `dueLeft <= 0`. Every invoice becomes paid when `dueLeft <= 0`, and the invoices are untouched otherwise. One history entry with the partly-paid or purchase-complete comment and the new state is added. A capture transaction with the reference id, the parent reference id and closed = true is appended. The payment's transaction id becomes the reference id, its parent id the response's reference id, and it is closed. Its method instance stays. Entity id, increment id, quote, store, mail flag, invoice flag and grand total stay |
| Push.MarkInvoicesPaid | Controller/Index/Push.php:219-225 | the foreach sets every invoice to paid and saves each one once, in order |
| Push.ApplyReceipt | Controller/Index/Push.php:203-245 | the setters and the child transaction turn the loaded order into exactly its receipt |
| Push.Account | Controller/Index/Push.php:203-247 | booking writes the receipt into the repository and the push's row into the transaction table |
| Push.Materialise | Controller/Index/Push.php:155-182 | the stored order of the quote is used as it is. Otherwise the push is recorded and an order is created, mapped, mailed and saved; a null or empty order, or an exception, is logged and ends the push. What this means for the repository is stated by StoredOrderUsedAsIs, MissingOrderIsCreated and MaterialisedOnce |
| Push.PushSpec | Controller/Index/Push.php:115-150 | what one push does: nothing for a non-POST request; the header notices; a logged parse failure; otherwise the parsed push is handled. Its properties are the lemmas below |
| Push.HandlePush | Controller/Index/Push.php:152-183 | a successful push of a new-order type with an existing quote gets its order and has the additional payment information handled; anything else stops. Its properties are stated by OnlySuccessfulNewOrderPushesChangeOrders, AccountedPush and PushFrame |
| Push.OrderForPush | Controller/Index/Push.php:155-182 | the stored order of the quote, or a created, mapped, mailed and saved one after the push was recorded; a null, empty or throwing creation is logged and ends the push. Its properties are stated by StoredOrderUsedAsIs, OrderForPushCreates, AccountedPush and PushFrame |
| Push.BookOrder | Controller/Index/Push.php:186-201 | stops for a type that is not receipt-able, a missing payment, or a method instance that is not a heidelpay method; a known reference id is logged as a duplicate; otherwise the receipt is booked. Its properties are stated by AccountedPush and KnownReferenceNeverAccounted |
| Push.AcceptReceipt | Controller/Index/Push.php:203-247 | saves the order's receipt, appends the push's row to the transaction table and ends as booked in the receipt's state. Its properties are stated by Receipt and AccountedPush |
| Push.Execute | Controller/Index/Push.php:115-250 | the controller ends in exactly the store and outcome of the push specification, including the stop for an order whose payment method is not a heidelpay method |
| Push.PushFrame | Controller/Index/Push.php:115-250 | a push only appends to the transaction table and to the effects. Quotes and stored payment information stay unchanged too, but only because two calls are not modelled (see Left out) |
| Push.HeadersAreAdvisory | Controller/Index/Push.php:125-132 | a wrong content type and the retry headers only add log lines: outcome, orders and transaction table are those of the same push sent as XML without the headers |
| Push.OnlySuccessfulNewOrderPushesChangeOrders | Controller/Index/Push.php:153 | orders and transaction table change only for a POSTed, parsed, successful push of a new-order payment type whose quote exists |
| Push.KnownReferenceNeverAccounted | Controller/Index/Push.php:192-201 | a push whose reference id is already recorded is never booked. When its order already exists, neither the orders nor the transaction table change |
| Push.AccountedPush | Controller/Index/Push.php:156-201 | a booked push found a stored order with an id and a payment whose method instance is a heidelpay method. Its type was receipt-able and its reference id new. The repository then holds the receipt and the table gained exactly the push's row. In particular, a push that had to create its order never books |
| Push.AccountedOrderIsFetched | Controller/Index/Push.php:227-247 | after a booked push, the quote's order in the repository is the receipt of the order found |
| Push.ReplayIsDuplicate | Controller/Index/Push.php:192-201 | delivering a booked push again ends as a duplicate and changes neither the orders nor the transaction table |
| Push.KnownReferenceStaysKnown | Controller/Index/Push.php:233-239 | a recorded reference id stays recorded after any push |
| Push.KnownReferenceNeverAccountedInRun | Controller/Index/Push.php:192-201 | once a reference id is recorded, no push of any later sequence with that id is booked |
| Push.AtMostOneBookingPerReference | Controller/Index/Push.php:192-239 | in any sequence of pushes, two booked pushes never carry the same payment reference id |
| Push.InstalmentsCompletePayment | Controller/Index/Push.php:203-225 | paying the due amount in two parts: the first part leaves the order in payment review with its invoices untouched. The second completes it: state processing, nothing due, total paid equal to the grand total, every invoice paid |
| Push.NonPostChangesNothing | Controller/Index/Push.php:120-123 | a request that is not a POST leaves the whole store unchanged, effects included, and ends as not-POST |
| Push.PushSpecIgnoresEffects | Controller/Index/Push.php:115-250 | the effects recorded so far do not influence a push: its outcome, orders and transaction table are the same for any earlier effects |
| Push.StoredOrderUsedAsIs | Controller/Index/Push.php:155-160 | when the quote already has a stored order with an id, the lookup returns it and changes nothing: no row is recorded and no order is created or saved |
| Push.StoredOrderNeverRecreated | Controller/Index/Push.php:155-201 | a parsed push whose quote already has a stored order with an id never ends in a creation failure, and either books a receipt or leaves orders and transaction table unchanged |
| Push.OrderForPushCreates | Controller/Index/Push.php:160-181 | without a stored order, a created order with an id is mapped and saved into the repository, and the transaction table gains exactly the push's row |
| Push.MissingOrderIsCreated | Controller/Index/Push.php:153-201 | a successful new-order push for an existing quote without a stored order, whose creation yields an order with an id: the repository is the old one with the mapped order saved, the quote's lookup now returns that order, the transaction table gained exactly the push's row, and no receipt is booked |
| Push.BookOrderKnownReference | Controller/Index/Push.php:192-201 | booking an order with an already recorded reference id changes neither orders nor transaction table and books nothing |
| Push.MaterialisedOnce | Controller/Index/Push.php:155-201 | delivering the same push a second time, after a first delivery that did not fail creating the order, changes neither the orders nor the transaction table: the quote's order exists only once |
| Push.BookOrderKeepsOtherQuotes | Controller/Index/Push.php:227-247 | booking saves the receipt under the order's own entity id and quote: the repository stays keyed by entity id and no other quote's orders change |
| Push.OrderForPushKeepsOtherQuotes | Controller/Index/Push.php:155-181 | getting the order keeps the repository keyed by entity id and changes no other quote's orders; the order returned belongs to the pushed quote, and so does every stored order with its id |
| Push.PushKeepsOtherQuotes | Controller/Index/Push.php:152-247 | in a repository keyed by entity id, a push keeps it keyed and never changes, deletes or replaces an order of a quote other than the one it names |
| Response.ResponseOrderMail | Controller/Index/Response.php:249-261 | a mail exactly when the order has an id and the sender does not fail; the logged error exactly when it has an id and the sender fails; nothing exactly when it has no id |
| Response.ForgetGuestPaymentInfo | Controller/Index/Response.php:284-302 | for a guest's quote with stored information, that record is deleted and every other record kept. Without a quote, for a registered customer or with nothing stored, the store is unchanged |
| Response.ValidateSecurityHash | Controller/Index/Response.php:309-333 | the result is the SDK's verdict for the shop secret and the transaction id; a mismatch logs the caller's address and the reference hash, a match logs nothing |
| Response.HandleOrderMail | Controller/Index/Response.php:249-261 | the guarded send produces exactly the effects of the response's mail rule |
| Response.HandleAdditionalPaymentInformation | Controller/Index/Response.php:284-302 | the method ends in exactly the store of the deletion rule |
| Response.ResponseSpec | Controller/Index/Response.php:137-243 | what one response does: the cart redirect for a non-POST request; for a POST, the redirect URL after a parse failure, a hash mismatch, an error or a pending result, and the order work on a verified success. Its properties are the lemmas below |
| Response.AcceptSuccess | Controller/Index/Response.php:217-238 | a missing quote or a throwing conversion is logged; a null order crashes; a created order is mapped, mailed, saved and a guest's payment information forgotten. Its properties are stated by SuccessSavesCreatedOrder and PostAnswersRedirectUrl |
| Response.Execute | Controller/Index/Response.php:137-243 | the controller ends in exactly the store and result of the response specification |
| Response.NonPostGoesToCart | Controller/Index/Response.php:154-167 | a non-POST request is redirected to checkout/cart/. Only the log line and the customer error message are added |
| Response.PostAnswersRedirectUrl | Controller/Index/Response.php:140-151 | every POST is answered with the plain-text redirect URL built up front, except a verified success whose quote yields no order at all. The invoice sender and the payment-information delete are assumed not to throw (see Left out) |
| Response.LedgerWrittenOnlyWhenVerified | Controller/Index/Response.php:181-197 | the transaction table gains the response's row exactly when the request is a parsed POST with a verified hash, and is untouched otherwise |
| Response.NoOrderWorkUnlessVerifiedSuccess | Controller/Index/Response.php:199-238 | without a verified successful POST: no order is saved, no confirmation or invoice mail sent, no payment information deleted. The effects only grow |
| Response.SuccessSavesCreatedOrder | Controller/Index/Response.php:217-236 | on a verified success whose quote yields an order, that order is saved, mapped with ORDER_ID set to its increment id, and a guest's record is gone. A missing quote or a failed conversion leaves orders and payment information unchanged |
| Response.ResponseKeepsOtherQuotes | Controller/Index/Response.php:217-238 | in a repository keyed by entity id, a response keeps it keyed and leaves the orders of every other quote than the one it names as they were. A verified success whose quote yields an order adds it as a new last row, under the next id when it has none |
| Response.OrderMailRulesDiffer | Controller/Index/Response.php:249-261 | for an order already marked as mailed, the response controller still sends the confirmation; the order helper does not |
| DumpGetterReturns.StripPrefix | Traits/DumpGetterReturnsTrait.php:53 | the preg_replace of the prefix; stated by StripsOnePrefix |
| DumpGetterReturns.Snake | Traits/DumpGetterReturnsTrait.php:54 | the underscore insertion before every capital except at the start; stated by UnderscoreBeforeEveryInnerCapital and NoLeadingUnderscoreAdded |
| DumpGetterReturns.PropertyFromGetter | Traits/DumpGetterReturnsTrait.php:51-55 | getPropertyFromGetter; stated by StripsOnePrefix, PropertyHasNoCapitals, PropertyOnlyInsertsUnderscores, UnderscoreBeforeEveryInnerCapital, NoLeadingUnderscoreAdded and the examples |
| DumpGetterReturns.StripsOnePrefix | Traits/DumpGetterReturnsTrait.php:53 | exactly one leading get, has or is is removed, only at the start; other names are unchanged |
| DumpGetterReturns.PropertyHasNoCapitals | Traits/DumpGetterReturnsTrait.php:54 | a property name contains no capital letter |
| DumpGetterReturns.PropertyOnlyInsertsUnderscores | Traits/DumpGetterReturnsTrait.php:54 | erasing underscores from the property gives the lowered stripped name with its own underscores erased, and the property is longer by one character per capital after the first position. Where each underscore goes is stated by UnderscoreBeforeEveryInnerCapital |
| DumpGetterReturns.NoLeadingUnderscoreAdded | Traits/DumpGetterReturnsTrait.php:54 | the first character of the stripped name gets no underscore: the property starts with its lowered first character, and is empty exactly when the stripped name is |
| DumpGetterReturns.UnderscoreBeforeEveryInnerCapital | Traits/DumpGetterReturnsTrait.php:54 | every character of the stripped name after the first lands at its position plus the number of capitals before it (after the first character). A capital there is preceded by `_` and lowered; any other character is copied. With the length and first-character lemmas this fixes the whole property |
| DumpGetterReturns.MarkCapitalsAt | Traits/DumpGetterReturnsTrait.php:54 | the same placement for the marking of a whole string: the j-th character sits after j characters and one underscore per earlier capital, a capital right after its own underscore |
| DumpGetterReturns.OneWordExample | Traits/DumpGetterReturnsTrait.php:51-55 | getId gives id |
| DumpGetterReturns.TwoWordGetter | Traits/DumpGetterReturnsTrait.php:51-55 | a getter named get plus two capitalised lower-case words gives the two words, lowered, joined by one underscore |
| DumpGetterReturns.TwoWordExample | Traits/DumpGetterReturnsTrait.php:51-55 | getTransactionId gives transaction_id |
| DumpGetterReturns.Getters | Traits/DumpGetterReturnsTrait.php:23-29 | a method is kept exactly when its name starts with get, is or has and it takes no parameter |
| DumpGetterReturns.GettersConcat | Traits/DumpGetterReturnsTrait.php:23-29 | array_filter keeps order and every occurrence: filtering a concatenation concatenates the filtered parts |
| DumpGetterReturns.RenderCast | Traits/DumpGetterReturnsTrait.php:36-39 | true is stored as "1" and false as "". Null is stored as "". An integer is stored as text that parses back to it. Strings, the cast text of a float and the print_r text of arrays are stored unchanged |
| DumpGetterReturns.Render | Traits/DumpGetterReturnsTrait.php:36-39 | the print_r and string cast of a kept result; stated by RenderCast |
| DumpGetterReturns.DecimalRoundTrip | Traits/DumpGetterReturnsTrait.php:39 | the string cast of an integer parses back to the integer |
| DumpGetterReturns.StoreResult | Traits/DumpGetterReturnsTrait.php:32-39 | one round of the foreach; stated by StoreResultAt |
| DumpGetterReturns.DumpMap | Traits/DumpGetterReturnsTrait.php:31-40 | the array the foreach builds; stated by DumpKeys and LastGetterWins |
| DumpGetterReturns.StoreResultAt | Traits/DumpGetterReturnsTrait.php:32-39 | one round of the loop adds exactly the getter's property, with the rendered value, unless the result is an object, and keeps every other entry |
| DumpGetterReturns.DumpKeys | Traits/DumpGetterReturnsTrait.php:31-39 | a property is in the dump exactly when some getter with a non-object result maps to it |
| DumpGetterReturns.LastGetterWins | Traits/DumpGetterReturnsTrait.php:31-39 | the stored value of a property is the rendered result of the last getter mapping to it |
| DumpGetterReturns.LexTotal | Traits/DumpGetterReturnsTrait.php:42 | the key order is total (with LexIrreflexive and LexTransitive, a strict total order) |
| DumpGetterReturns.KSort | Traits/DumpGetterReturnsTrait.php:42 | the same distinct keys, as many as before, in strictly ascending order |
| DumpGetterReturns.AssignKeepsOrder | Traits/DumpGetterReturnsTrait.php:39 | an array assignment appends a new key and keeps an existing key in its place, so every key is listed once |
| DumpGetterReturns.CollectResults | Traits/DumpGetterReturnsTrait.php:31-40 | the foreach builds exactly the dump map of the getters, as a well-formed ordered array |
| DumpGetterReturns.Dump | Traits/DumpGetterReturnsTrait.php:18-45 | the result holds exactly the dump map of the filtered getters, its keys are those of the map and they are strictly ascending |

## Left out

- Floating point: `Push.php:203` casts the amount to a float and compares `dueLeft` with `0.00`. The model uses exact integers, so rounding effects near zero are not modelled.
- Push.Receipt: keeps the partly-paid amount and currency as given, not the text the payment helper's `format` produces.
- `TotalDue` follows Magento's `Order::getTotalDue` (grand total minus total paid, at least zero); Magento's own code is not part of this model.
- Push.PushFrame: its quotes and payment-information conjuncts hold because of two modelling choices. Order creation (`Push.php:166`) is assumed to write nothing. The payment helper's `handleAdditionalPaymentInformation` (`Push.php:183`) is an effect marker, although its namesake in the response controller deletes a guest's stored payment information. What is stated outright is that the transaction table and the effects only grow.
- Push.MaterialisedOnce: holds only when the first delivery did not end in a creation failure and no empty order (entity id 0) of the quote is stored. A creation that fails records the push at `Push.php:161` again on every retry.
- Repository failures: `orderRepository->save` (`Push.php:181`, `Push.php:247`, `Response.php:235`), the invoice saves (`Push.php:223`) and the transaction-table writes are assumed to succeed. If the save at `Push.php:247` threw after the row written at `Push.php:233`, a retried push would end as a duplicate (`Push.php:198-201`) and its amount would never be booked; the model does not represent that path.
- Uncaught mail and deletion errors: the invoice sender's `send` (`Helper/Order.php:101`, `Response.php:273`) and the payment information's `delete` (`Response.php:299`, declared to throw at `Response.php:282`) are not guarded by a try/catch. The model assumes they do not throw. In the source, such a throw would end the request before the order save (`Push.php:181`, `Response.php:235`) or before the redirect answer (`Response.php:242`).
- Concurrency: requests are handled one after another. Two pushes, or a push and a response, racing on the same order are not modelled (the source takes no lock).
- SDK internals. The XML and POST parsing and the hash algorithm are not modelled:
  - a parsed request is an optional `GatewayResponse`;
  - hash verification is an answer of `Collaborators`.
  - A push whose XML cannot be parsed is modelled as stopping right after the logged parse error. In the source, `setRawResponse`'s exception is caught and execution goes on with whatever `getResponse` then returns, and the docblock at `Push.php:113` declares `XmlResponseParserException`; what the SDK returns or throws after a failed parse is not part of this model.
- Helpers whose code is not part of this model are given as answers:
  - `createOrderFromQuote`, `mapStatus` (which only sets the order state here), `splitPaymentCode`, `isNewOrderType`, `isReceiptAble` and `getDataFromResponse` (the response's fields);
  - the sales configuration, the URL builder and `Helper/Payment.php`'s `handleAdditionalPaymentInformation`, which the push calls (recorded as an effect).
  - Order creation is assumed to write nothing to the store itself; the created order enters the repository through the save that follows.
  - Push.MissingOrderIsCreated, Push.MaterialisedOnce, Push.PushKeepsOtherQuotes, Response.ResponseKeepsOtherQuotes: they assume `Shop.CreatesOrderForQuote`, that an order created from a quote carries that quote's id, as Magento's quote-to-order conversion does. The last two also assume `Shop.CreatesNewOrder`, that the created order's entity id is not stored yet, and start from a repository keyed by entity id (`Shop.KeyedByEntityId`). The oracle itself is otherwise unconstrained.
- `saveHeidelpayTransaction` (of the payment helper and of the method instance) and `heidelpayTransactionExists` are not part of this model. The model assumes all three use one table keyed on the response's payment reference id. The suppressed receipt of a push that creates its order depends on this assumption.
- `Push.php:156` calls a `fetchOrder` that `Helper/Order.php` does not define. It is modelled as `fetchOrderByQuoteId` on the transaction id, which is the quote id (`Push.php:157`).
- Uncaught errors:
  - a missing quote (`Push.php:157`) and an order without payment (`Push.php:188-191`) end as the outcomes `QuoteMissing` and `NoPayment`, with nothing further changed;
  - an order paid with a method of another module has a method instance without `heidelpayTransactionExists` (`Push.php:191-195`). It ends as the outcome `ForeignMethod`, with nothing further changed;
  - the empty-order branch at `Push.php:167-171` refers to an undefined `$e` and is treated as "log and return";
  - a null order from creation in the response controller (`Response.php:229`) ends as the result `Crashed`.
- An order model is "empty" when its entity id is 0. Saving an order without an id stores it under `Shop.NextEntityId`, one above the largest stored id, as the database's auto-increment key would. `canInvoice` is a stored flag of the order rather than Magento's computation from its items.
- Invoices and the payment are values held by the order. An invoice save is an effect, and `addTransaction` appends a capture record built from the payment's transaction fields.
- Logging:
  - kept: the lines that mark a decision (header notices, parse, creation, duplicate, hash, NOK and mail errors);
  - left out: the debug dumps of whole responses, of the shop secret (`Response.php:314`), of order status and of mail handling, and `hasHeidelpayPayment`'s error lines.
- The message texts, the URL arguments (`_forced_secure`, `_secure`) and the redirect URL itself are not modelled; the redirect URL is a given string.
- Negative amounts: the source does not reject them and neither does the model; the push lemmas hold for any amount.
- `ksort`: PHP turns numeric-string keys such as `"123"` into integer keys and compares numeric strings as numbers. The model compares every key byte-wise as a string, which is exact for keys that are not numeric strings.
- `strtolower` is modelled on ASCII letters only.
- `print_r`: its rendering of an array is carried as the given text.
- DumpGetterReturns.RenderCast: a float result is carried with the text of its string cast; PHP's float-to-string conversion (precision, exponent form) is not modelled.
- PHP reflection in `dump`: the class's methods are an input list of name, parameter count and returned value. A getter is called once and its result is given.
- `PaymentMethods/HeidelpayDirectDebitPaymentMethod.php` is not part of this model. It is a thin wrapper over the SDK's direct-debit method and has no logic of its own.
