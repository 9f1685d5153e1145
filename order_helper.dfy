/** The order helper: invoice and order-confirmation mails, the lookup of an
    order by its quote id, and the check whether an order is paid with one of
    the heidelpay methods. */
module OrderHelper {
  import opened Sales
  import opened Shop

  /** One invoice mail per invoice, in the order of the invoice collection. */
  function MailsFor(invoices: seq<Invoice>): (mails: seq<Effect>)
    ensures |mails| == |invoices|
    ensures forall i :: 0 <= i < |invoices| ==> mails[i] == InvoiceMail(invoices[i].id)
  {
    if invoices == [] then [] else [InvoiceMail(invoices[0].id)] + MailsFor(invoices[1..])
  }

  /** The mails handleInvoiceMails sends for `order`: all of its invoices when the
      order can no longer be invoiced and the store sends new-invoice mails,
      none otherwise. */
  function InvoiceMails(order: OrderRecord, canSendNewInvoiceEmail: nat -> bool): (mails: seq<Effect>)
    ensures !order.canInvoice && canSendNewInvoiceEmail(order.storeId) ==>
              |mails| == |order.invoices| &&
              forall i :: 0 <= i < |order.invoices| ==> mails[i] == InvoiceMail(order.invoices[i].id)
    ensures order.canInvoice || !canSendNewInvoiceEmail(order.storeId) ==> mails == []
  {
    if !order.canInvoice && canSendNewInvoiceEmail(order.storeId) then MailsFor(order.invoices) else []
  }

  /** When invoice ids are distinct, every invoice is mailed exactly once. */
  lemma {:induction false} EachInvoiceMailedOnce(invoices: seq<Invoice>, k: nat)
    requires forall i, j :: 0 <= i < j < |invoices| ==> invoices[i].id != invoices[j].id
    requires k < |invoices|
    ensures multiset(MailsFor(invoices))[InvoiceMail(invoices[k].id)] == 1
  {
    var mail := InvoiceMail(invoices[k].id);
    assert MailsFor(invoices) == [InvoiceMail(invoices[0].id)] + MailsFor(invoices[1..]);
    if k == 0 {
      NotMailed(invoices[1..], invoices[0].id);
    } else {
      EachInvoiceMailedOnce(invoices[1..], k - 1);
    }
  }

  /** No mail goes to an id that no invoice in the list carries. */
  lemma {:induction false} NotMailed(invoices: seq<Invoice>, id: nat)
    requires forall i :: 0 <= i < |invoices| ==> invoices[i].id != id
    ensures multiset(MailsFor(invoices))[InvoiceMail(id)] == 0
  {
    if invoices != [] {
      assert MailsFor(invoices) == [InvoiceMail(invoices[0].id)] + MailsFor(invoices[1..]);
      NotMailed(invoices[1..], id);
    }
  }

  /** handleInvoiceMails: the loop over the invoice collection sends InvoiceMails. */
  method HandleInvoiceMails(order: SalesOrder, canSendNewInvoiceEmail: nat -> bool, backend: Backend)
    modifies backend`effects
    ensures backend.effects == old(backend.effects) + InvoiceMails(order.Record(), canSendNewInvoiceEmail)
  {
    if !order.canInvoice && canSendNewInvoiceEmail(order.storeId) {
      var invoices := order.invoices;
      var i := 0;
      while i < |invoices|
        invariant 0 <= i <= |invoices|
        invariant backend.effects == old(backend.effects) + MailsFor(invoices[..i])
      {
        assert MailsFor(invoices[..i + 1]) == MailsFor(invoices[..i]) + [InvoiceMail(invoices[i].id)];
        backend.effects := backend.effects + [InvoiceMail(invoices[i].id)];
        i := i + 1;
      }
      assert invoices[..i] == invoices;
    }
  }

  /** What handleOrderMail does: one confirmation mail for an order that exists,
      has an id and has not been mailed yet; a sender failure is only logged. */
  function OrderMailEffects(order: Option<OrderRecord>, senderThrows: bool): (effects: seq<Effect>)
    ensures |effects| <= 1
    ensures forall e :: e in effects && e.OrderMail? ==>
              order.Some? && order.value.entityId != 0 && !order.value.emailSent &&
              !senderThrows && e.incrementId == order.value.incrementId
    ensures order.Some? && order.value.entityId != 0 && !order.value.emailSent && !senderThrows ==>
              effects == [OrderMail(order.value.incrementId)]
    ensures forall e :: e in effects ==> e.OrderMail? || e == Logged(OrderMailFailed)
    ensures effects == [] <==> !(order.Some? && order.value.entityId != 0 && !order.value.emailSent)
    ensures order.Some? && order.value.entityId != 0 && !order.value.emailSent && senderThrows ==>
              effects == [Logged(OrderMailFailed)]
  {
    if order.Some? && order.value.entityId != 0 && !order.value.emailSent then
      if senderThrows then [Logged(OrderMailFailed)] else [OrderMail(order.value.incrementId)]
    else
      []
  }

  /** handleOrderMail; an exception of the sender is caught and logged. */
  method HandleOrderMail(order: SalesOrder?, senderThrows: bool, backend: Backend)
    modifies backend`effects
    ensures backend.effects ==
              old(backend.effects) + OrderMailEffects(if order == null then None else Some(order.Record()), senderThrows)
  {
    if order != null && order.entityId != 0 && !order.emailSent {
      if senderThrows {
        backend.effects := backend.effects + [Logged(OrderMailFailed)];
      } else {
        backend.effects := backend.effects + [OrderMail(order.incrementId)];
      }
    }
  }

  /** fetchOrdersByQuoteId: the stored orders of a quote, in repository order. */
  function FetchOrdersByQuoteId(orders: seq<OrderRecord>, quoteId: string): (list: seq<OrderRecord>)
    ensures |list| <= |orders|
    ensures forall k :: 0 <= k < |list| ==> list[k].quoteId == quoteId
    ensures list == [] <==> forall i :: 0 <= i < |orders| ==> orders[i].quoteId != quoteId
    ensures forall i :: 0 <= i < |orders| && orders[i].quoteId == quoteId ==> orders[i] in list
  {
    if orders == [] then []
    else
      var rest := FetchOrdersByQuoteId(orders[..|orders| - 1], quoteId);
      assert orders == orders[..|orders| - 1] + [orders[|orders| - 1]];
      assert forall i :: 0 <= i < |orders| - 1 ==> orders[i] == orders[..|orders| - 1][i];
      if orders[|orders| - 1].quoteId == quoteId then rest + [orders[|orders| - 1]] else rest
  }

  /** The collection keeps repository order: the orders of a quote in two
      consecutive parts of the repository are those of the first part followed
      by those of the second. */
  lemma {:induction false} FetchOrdersConcat(a: seq<OrderRecord>, b: seq<OrderRecord>, quoteId: string)
    ensures FetchOrdersByQuoteId(a + b, quoteId) == FetchOrdersByQuoteId(a, quoteId) + FetchOrdersByQuoteId(b, quoteId)
  {
    if b == [] {
      assert a + b == a;
    } else {
      var n := |b| - 1;
      assert (a + b)[..|a + b| - 1] == a + b[..n];
      assert (a + b)[|a + b| - 1] == b[n];
      FetchOrdersConcat(a, b[..n], quoteId);
    }
  }

  /** No order after position `i` belongs to the quote. */
  ghost predicate NoneAfter(orders: seq<OrderRecord>, quoteId: string, i: nat)
  {
    forall j :: i < j < |orders| ==> orders[j].quoteId != quoteId
  }

  /** `r` is stored at some position with this quote id and no later order has it. */
  ghost predicate IsLastOfQuote(orders: seq<OrderRecord>, quoteId: string, r: OrderRecord)
  {
    exists i :: 0 <= i < |orders| && orders[i] == r && r.quoteId == quoteId && NoneAfter(orders, quoteId, i)
  }

  lemma {:induction false} LastOfFetched(orders: seq<OrderRecord>, quoteId: string)
    ensures var list := FetchOrdersByQuoteId(orders, quoteId);
            list != [] ==> IsLastOfQuote(orders, quoteId, list[|list| - 1])
  {
    if orders != [] {
      var n := |orders| - 1;
      var pre := orders[..n];
      var list := FetchOrdersByQuoteId(orders, quoteId);
      var rest := FetchOrdersByQuoteId(pre, quoteId);
      if orders[n].quoteId != quoteId {
        assert list == rest;
        LastOfFetched(pre, quoteId);
        if rest != [] {
          var i :| 0 <= i < |pre| && pre[i] == rest[|rest| - 1] && rest[|rest| - 1].quoteId == quoteId &&
                   NoneAfter(pre, quoteId, i);
          assert orders[i] == list[|list| - 1];
          assert NoneAfter(orders, quoteId, i);
        }
      } else {
        assert list == rest + [orders[n]];
        assert NoneAfter(orders, quoteId, n);
        assert orders[n] == list[|list| - 1];
      }
    }
  }

  /** fetchOrderByQuoteId: the last order of the quote, or nothing (the empty
      object) when the quote has no order. */
  function FetchOrderByQuoteId(orders: seq<OrderRecord>, quoteId: string): (found: Option<OrderRecord>)
    ensures found.None? <==> forall i :: 0 <= i < |orders| ==> orders[i].quoteId != quoteId
    ensures found.Some? ==> IsLastOfQuote(orders, quoteId, found.value)
  {
    var list := FetchOrdersByQuoteId(orders, quoteId);
    LastOfFetched(orders, quoteId);
    if list == [] then None else Some(list[|list| - 1])
  }

  /** Saving the order that was fetched for a quote, with its entity id and quote
      id unchanged, makes the saved version (with the id the save assigned when
      it had none) the one fetched next time. */
  lemma {:induction false} FetchAfterSave(orders: seq<OrderRecord>, quoteId: string, r: OrderRecord, r': OrderRecord)
    requires FetchOrderByQuoteId(orders, quoteId) == Some(r)
    requires r'.entityId == r.entityId && r'.quoteId == quoteId
    ensures FetchOrderByQuoteId(SaveOrder(orders, r'), quoteId) == Some(Persisted(orders, r'))
  {
    if r'.entityId == 0 {
      SaveWithoutIdIsLast(orders, quoteId, r');
    } else {
      FetchAfterOverwrite(orders, quoteId, r, r');
    }
  }

  /** An order saved without an id becomes the last order of its quote. */
  lemma SaveWithoutIdIsLast(orders: seq<OrderRecord>, quoteId: string, r': OrderRecord)
    requires r'.entityId == 0 && r'.quoteId == quoteId
    ensures FetchOrderByQuoteId(SaveOrder(orders, r'), quoteId) == Some(Persisted(orders, r'))
  {
    var saved := SaveOrder(orders, r');
    assert saved[..|orders|] == orders;
    FetchOrdersStep(saved, quoteId);
  }

  /** FetchAfterSave for an order that keeps its non-zero id. */
  lemma {:induction false} FetchAfterOverwrite(orders: seq<OrderRecord>, quoteId: string, r: OrderRecord, r': OrderRecord)
    requires FetchOrderByQuoteId(orders, quoteId) == Some(r)
    requires r'.entityId == r.entityId && r'.quoteId == quoteId && r'.entityId != 0
    ensures FetchOrderByQuoteId(SaveOrder(orders, r'), quoteId) == Some(r')
    decreases |orders|, 1
  {
    var n := |orders| - 1;
    var i :| 0 <= i < |orders| && orders[i] == r && NoneAfter(orders, quoteId, i);
    if orders[n].entityId != r.entityId {
      SaveBeforeLast(orders, quoteId, r, r', i);
    } else {
      SaveOverwrites(orders, r', n);
      FetchOrdersStep(SaveOrder(orders, r'), quoteId);
    }
  }

  /** Saving the first order of a quote makes it (with the id the save assigned
      when it had none) the quote's order. */
  lemma SaveFirstOfQuote(orders: seq<OrderRecord>, quoteId: string, r: OrderRecord)
    requires forall i :: 0 <= i < |orders| ==> orders[i].quoteId != quoteId
    requires r.quoteId == quoteId
    ensures FetchOrderByQuoteId(SaveOrder(orders, r), quoteId) == Some(Persisted(orders, r))
  {
    var saved := SaveOrder(orders, r);
    var p := Persisted(orders, r);
    if r.entityId != 0 && exists i :: 0 <= i < |orders| && orders[i].entityId == r.entityId {
      var i :| 0 <= i < |orders| && orders[i].entityId == r.entityId;
      SaveOverwrites(orders, r, i);
      assert saved[i] == p;
    } else {
      assert saved[|orders|] == p;
    }
    var found := FetchOrderByQuoteId(saved, quoteId);
    var k :| 0 <= k < |saved| && saved[k] == found.value && found.value.quoteId == quoteId && NoneAfter(saved, quoteId, k);
  }

  /** FetchAfterSave when the last stored order is another entity: it cannot
      belong to the quote, so the claim reduces to the orders before it. */
  lemma {:induction false} SaveBeforeLast(orders: seq<OrderRecord>, quoteId: string, r: OrderRecord, r': OrderRecord, i: nat)
    requires i < |orders| && orders[i] == r && NoneAfter(orders, quoteId, i)
    requires FetchOrderByQuoteId(orders, quoteId) == Some(r)
    requires r'.entityId == r.entityId && r'.quoteId == quoteId && r'.entityId != 0
    requires orders[|orders| - 1].entityId != r.entityId
    ensures FetchOrderByQuoteId(SaveOrder(orders, r'), quoteId) == Some(r')
    decreases |orders|, 0
  {
    var n := |orders| - 1;
    assert i < n;
    FetchSkipsLast(orders, quoteId);
    FetchAfterOverwrite(orders[..n], quoteId, r, r');
    SaveKeepsLast(orders, r', i);
    FetchSkipsLast(SaveOrder(orders, r'), quoteId);
  }

  /** An order of another quote at the end does not change the lookup. */
  lemma FetchSkipsLast(orders: seq<OrderRecord>, quoteId: string)
    requires orders != [] && orders[|orders| - 1].quoteId != quoteId
    ensures FetchOrderByQuoteId(orders, quoteId) == FetchOrderByQuoteId(orders[..|orders| - 1], quoteId)
  {
    var n := |orders| - 1;
    FetchOrdersStep(orders, quoteId);
    var headList := FetchOrdersByQuoteId(orders[..n], quoteId);
    assert headList + [] == headList;
    SameListSameOrder(orders, orders[..n], quoteId);
  }

  /** Saving an entity stored before the last position leaves the last order as it is. */
  lemma SaveKeepsLast(orders: seq<OrderRecord>, r': OrderRecord, i: nat)
    requires i < |orders| - 1 && orders[i].entityId == r'.entityId && r'.entityId != 0
    requires orders[|orders| - 1].entityId != r'.entityId
    ensures var n := |orders| - 1;
            var saved := SaveOrder(orders, r');
            |saved| == |orders| && saved[n] == orders[n] && saved[..n] == SaveOrder(orders[..n], r')
  {
    var n := |orders| - 1;
    SaveOverwrites(orders, r', i);
    SaveOverwrites(orders[..n], r', i);
    var saved := SaveOrder(orders, r');
    assert saved[..n] == SaveOrder(orders[..n], r');
  }

  /** Saving over a stored entity id overwrites every order with that id in place. */
  lemma SaveOverwrites(orders: seq<OrderRecord>, r': OrderRecord, i: nat)
    requires i < |orders| && orders[i].entityId == r'.entityId && r'.entityId != 0
    ensures var saved := SaveOrder(orders, r');
            |saved| == |orders| &&
            forall k :: 0 <= k < |orders| ==> saved[k] == if orders[k].entityId == r'.entityId then r' else orders[k]
  {
  }

  /** Every stored order with entity id `id` belongs to the quote. */
  predicate IdBelongsToQuote(orders: seq<OrderRecord>, id: nat, quoteId: string)
  {
    forall i :: 0 <= i < |orders| && orders[i].entityId == id ==> orders[i].quoteId == quoteId
  }

  /** Two repositories of the same length that agree wherever either holds an
      order of the quote list the same orders for it. */
  lemma {:induction false} FetchOrdersPointwise(a: seq<OrderRecord>, b: seq<OrderRecord>, quoteId: string)
    requires |a| == |b|
    requires forall k :: 0 <= k < |a| && (a[k].quoteId == quoteId || b[k].quoteId == quoteId) ==> a[k] == b[k]
    ensures FetchOrdersByQuoteId(a, quoteId) == FetchOrdersByQuoteId(b, quoteId)
  {
    if a != [] {
      var n := |a| - 1;
      FetchOrdersPointwise(a[..n], b[..n], quoteId);
      FetchOrdersStep(a, quoteId);
      FetchOrdersStep(b, quoteId);
    }
  }

  /** A save keeps the entity id a primary key and touches only the saved
      order's quote: when the stored orders with its id belong to its quote,
      every other quote lists the same orders afterwards, and the id it is
      stored under belongs to its quote. */
  lemma SaveKeepsOtherQuotes(orders: seq<OrderRecord>, r: OrderRecord)
    requires KeyedByEntityId(orders)
    requires IdBelongsToQuote(orders, r.entityId, r.quoteId)
    ensures var saved := SaveOrder(orders, r);
            KeyedByEntityId(saved) &&
            IdBelongsToQuote(saved, Persisted(orders, r).entityId, r.quoteId) &&
            forall q :: q != r.quoteId ==> FetchOrdersByQuoteId(saved, q) == FetchOrdersByQuoteId(orders, q)
  {
    var saved := SaveOrder(orders, r);
    var p := Persisted(orders, r);
    if r.entityId != 0 && exists i :: 0 <= i < |orders| && orders[i].entityId == r.entityId {
      var i :| 0 <= i < |orders| && orders[i].entityId == r.entityId;
      SaveOverwrites(orders, r, i);
      forall q | q != r.quoteId
        ensures FetchOrdersByQuoteId(saved, q) == FetchOrdersByQuoteId(orders, q)
      {
        FetchOrdersPointwise(saved, orders, q);
      }
    } else {
      assert saved == orders + [p];
      forall q | q != r.quoteId
        ensures FetchOrdersByQuoteId(saved, q) == FetchOrdersByQuoteId(orders, q)
      {
        FetchOrdersConcat(orders, [p], q);
        assert [p][..0] == [];
      }
    }
  }

  lemma FetchOrdersStep(orders: seq<OrderRecord>, quoteId: string)
    requires orders != []
    ensures var n := |orders| - 1;
            FetchOrdersByQuoteId(orders, quoteId) ==
              FetchOrdersByQuoteId(orders[..n], quoteId) + (if orders[n].quoteId == quoteId then [orders[n]] else [])
  {
  }

  lemma SameListSameOrder(a: seq<OrderRecord>, b: seq<OrderRecord>, quoteId: string)
    requires FetchOrdersByQuoteId(a, quoteId) == FetchOrdersByQuoteId(b, quoteId)
    ensures FetchOrderByQuoteId(a, quoteId) == FetchOrderByQuoteId(b, quoteId)
  {
  }

  /** hasHeidelpayPayment: false for a missing payment and for a payment whose
      method instance is not a heidelpay method, true otherwise. */
  function HasHeidelpayPayment(order: OrderRecord): (has: bool)
    ensures has <==> order.payment.Some? && order.payment.value.instance.HeidelpayMethod?
  {
    if order.payment.None? then false
    else if !order.payment.value.instance.HeidelpayMethod? then false
    else true
  }
}
