/**
 * `BillingService`: the charge engine, the two consumers, the dispatcher and
 * the listings, as methods over the services it is built from. Each method
 * is proved to do what the matching function of `Engine` says.
 */
module Billing {
  import opened Domain
  import opened Wire
  import opened Store
  import opened Kafka
  import opened Payment
  import opened Engine

  lemma AppendAssociative<T>(a: seq<T>, b: seq<T>, c: seq<T>)
    ensures a + (b + c) == a + b + c
  {
  }

  class BillingService {
    const paymentProvider: PaymentProvider
    const invoiceService: InvoiceService
    const kafkaService: KafkaService
    const customerService: CustomerService

    constructor (paymentProvider: PaymentProvider, invoiceService: InvoiceService,
                 kafkaService: KafkaService, customerService: CustomerService)
      ensures this.paymentProvider == paymentProvider && this.invoiceService == invoiceService
      ensures this.kafkaService == kafkaService && this.customerService == customerService
    {
      this.paymentProvider := paymentProvider;
      this.invoiceService := invoiceService;
      this.kafkaService := kafkaService;
      this.customerService := customerService;
    }

    /** Everything the billing core reads or writes, as one value. */
    function View(): World
      reads paymentProvider, invoiceService, kafkaService
    {
      World(invoiceService.invoices, customerService.customers, invoiceService.audits,
            paymentProvider.charged, kafkaService.invoiceTopic, kafkaService.retryTopic)
    }

    /** `chargeInvoice`: re-fetch, check, charge, audit; every exception becomes `false`. */
    method ChargeInvoice(id: Int32, invoiceStatus: InvoiceStatus) returns (status: bool)
      modifies invoiceService, paymentProvider
      ensures View() == Charge(old(View()), id, invoiceStatus, paymentProvider.answers).world
      ensures status == Charge(old(View()), id, invoiceStatus, paymentProvider.answers).paid
    {
      var found := invoiceService.Fetch(id);
      if found.None? {
        return false;  // InvoiceNotFoundException
      }
      var invoice := found.value;
      var customer := customerService.Fetch(invoice.customerId);
      if customer.None? {
        return false;  // the customer lookup throws; the generic handler answers false
      }
      status := false;
      if invoice.status == invoiceStatus && customer.value.currency == invoice.amount.currency {
        var reply := paymentProvider.Charge(invoice);
        match reply
        case Raised(_) =>
          return false;  // NetworkException or any other: caught before the audit entry
        case Answered(ok) =>
          status := ok;
      } else if customer.value.currency != invoice.amount.currency {
        return false;  // CurrencyMismatchException, caught by the generic handler
      }
      CreateAuditEntry(id, invoiceStatus, status);
    }

    /** `createAuditEntry`: one audit row from the expected status to the outcome's target. */
    method CreateAuditEntry(id: Int32, invoiceStatus: InvoiceStatus, status: bool)
      modifies invoiceService
      ensures invoiceService.audits == old(invoiceService.audits) + [Audit(id, invoiceStatus, AuditTarget(invoiceStatus, status))]
      ensures invoiceService.invoices == old(invoiceService.invoices)
    {
      if status {
        invoiceService.CreateAudit(id, invoiceStatus, Paid);
      } else if invoiceStatus == Pending {
        invoiceService.CreateAudit(id, invoiceStatus, Failed);
      } else {
        invoiceService.CreateAudit(id, invoiceStatus, RetryFailed);
      }
    }

    /** `updateStatus`: sets the status of invoice id and touches nothing else. */
    method UpdateStatus(id: Int32, status: InvoiceStatus)
      modifies invoiceService
      ensures invoiceService.invoices == WithStatus(old(invoiceService.invoices), id, status)
      ensures invoiceService.audits == old(invoiceService.audits)
    {
      invoiceService.UpdateInvoice(id, status);
    }

    /** `processRetry`: marks the invoice FAILED and publishes the fetched copy to the retry topic. */
    method ProcessRetry(invoice: Invoice)
      modifies invoiceService, kafkaService
      ensures invoiceService.invoices == WithStatus(old(invoiceService.invoices), invoice.id, Failed)
      ensures invoiceService.audits == old(invoiceService.audits)
      ensures kafkaService.retryTopic == old(kafkaService.retryTopic) + [ToRecord(invoice)]
      ensures kafkaService.invoiceTopic == old(kafkaService.invoiceTopic)
    {
      UpdateStatus(invoice.id, Failed);
      kafkaService.SendMessage(Encode(invoice), CurrencyName(invoice.amount.currency), RetryTopic);
    }

    /** The body of `processPendingInvoice` for one message text. */
    method ProcessPendingMessage(msg: string)
      modifies invoiceService, paymentProvider, kafkaService
      ensures View() == PendingStep(old(View()), msg, paymentProvider.answers)
    {
      var parsed := DecodeId(msg);
      if parsed.Some? {
        var id := parsed.value;
        var ok := ChargeInvoice(id, Pending);
        if ok {
          UpdateStatus(id, Paid);
        } else {
          var invoice := invoiceService.Fetch(id);
          if invoice.Some? {
            ProcessRetry(invoice.value);
          }
        }
      }
    }

    /** `processPendingInvoice` over one polled batch of message texts, in order. */
    method ProcessPendingInvoice(messages: seq<string>)
      modifies invoiceService, paymentProvider, kafkaService
      ensures View() == ProcessPending(old(View()), messages, paymentProvider.answers)
    {
      var i := 0;
      while i < |messages|
        invariant 0 <= i <= |messages|
        invariant View() == ProcessPending(old(View()), messages[..i], paymentProvider.answers)
      {
        ProcessPendingMessage(messages[i]);
        assert messages[..i + 1][..i] == messages[..i];
        i := i + 1;
      }
      assert messages[..|messages|] == messages;
    }

    /**
     * The body of `retryInvoices` for one message text: `completed` is false
     * when its field 0 is not an `Int`, which ends the batch.
     */
    method RetryMessage(msg: string) returns (notified: seq<Int32>, completed: bool)
      modifies invoiceService, paymentProvider
      ensures var step := RetryStep(old(View()), msg, paymentProvider.answers);
              View() == step.world && notified == step.notified && completed == step.completed
    {
      var parsed := DecodeId(msg);
      if parsed.None? {
        return [], false;
      }
      var id := parsed.value;
      var ok := ChargeInvoice(id, Failed);
      if ok {
        UpdateStatus(id, Paid);
        notified := [];
      } else {
        var notice := ProcessFailedRetry(id);
        notified := [id];
      }
      completed := true;
    }

    /** `retryInvoices` over one polled batch; `completed` is false when a message's id did not parse. */
    method RetryInvoices(messages: seq<string>) returns (notified: seq<Int32>, completed: bool)
      modifies invoiceService, paymentProvider
      ensures var run := RetryBatch(old(View()), messages, paymentProvider.answers);
              View() == run.world && notified == run.notified && completed == run.completed
    {
      notified := [];
      var i := 0;
      while i < |messages|
        invariant 0 <= i <= |messages|
        invariant RetryBatch(old(View()), messages[..i], paymentProvider.answers) == RetryRun(View(), notified, true)
      {
        assert messages[..i + 1][..i] == messages[..i];
        var more, ok := RetryMessage(messages[i]);
        notified := notified + more;
        if !ok {
          RetryBatchStops(old(View()), messages, i + 1, paymentProvider.answers);
          return notified, false;
        }
        i := i + 1;
      }
      assert messages[..|messages|] == messages;
      completed := true;
    }

    /** The inner loop of `processInvoices`: one message per invoice, keyed by its currency. */
    method SendInvoices(output: seq<Invoice>)
      modifies kafkaService
      ensures kafkaService.invoiceTopic == old(kafkaService.invoiceTopic) + Records(output)
      ensures kafkaService.retryTopic == old(kafkaService.retryTopic)
    {
      var j := 0;
      while j < |output|
        invariant 0 <= j <= |output|
        invariant kafkaService.invoiceTopic == old(kafkaService.invoiceTopic) + Records(output[..j])
        invariant kafkaService.retryTopic == old(kafkaService.retryTopic)
      {
        var invoice := output[j];
        ghost var retry := kafkaService.retryTopic;
        RecordsNext(output, j);
        AppendAssociative(old(kafkaService.invoiceTopic), Records(output[..j]), [ToRecord(invoice)]);
        kafkaService.SendMessage(Encode(invoice), CurrencyName(invoice.amount.currency), InvoiceTopic);
        assert kafkaService.retryTopic == retry;
        j := j + 1;
      }
      assert output[..|output|] == output;
    }

    /** `processInvoices`, sequentially: every currency in order, every pending invoice of it. */
    method ProcessInvoices()
      modifies kafkaService
      ensures View() == Dispatch(old(View()))
    {
      ghost var rows := invoiceService.invoices;
      var i := 0;
      while i < |Currencies|
        invariant 0 <= i <= |Currencies|
        invariant kafkaService.invoiceTopic == old(kafkaService.invoiceTopic) + Dispatched(rows, Currencies[..i])
        invariant kafkaService.retryTopic == old(kafkaService.retryTopic)
      {
        var output := invoiceService.FetchPendingInvoices(Currencies[i]);
        ghost var done, batch := Dispatched(rows, Currencies[..i]), Records(output);
        DispatchedNext(rows, Currencies, i);
        SendInvoices(output);
        AppendAssociative(old(kafkaService.invoiceTopic), done, batch);
        i := i + 1;
      }
      assert Currencies[..|Currencies|] == Currencies;
    }

    /** The inner loop of the listings: `output.forEach { list.add(it) }`. */
    method AddAll(list: seq<Invoice>, output: seq<Invoice>) returns (result: seq<Invoice>)
      ensures result == list + output
    {
      result := list;
      var j := 0;
      while j < |output|
        invariant 0 <= j <= |output|
        invariant result == list + output[..j]
      {
        result := result + [output[j]];
        assert output[..j + 1] == output[..j] + [output[j]];
        j := j + 1;
      }
      assert output[..|output|] == output;
    }

    /** `getPaidInvoices`: the PAID invoices, currency by currency. */
    method GetPaidInvoices() returns (result: seq<Invoice>)
      ensures result == ByCurrency(invoiceService.invoices, Currencies, Paid)
    {
      result := [];
      var i := 0;
      while i < |Currencies|
        invariant 0 <= i <= |Currencies|
        invariant result == ByCurrency(invoiceService.invoices, Currencies[..i], Paid)
      {
        var output := invoiceService.FetchPaidInvoices(Currencies[i]);
        ByCurrencyNext(invoiceService.invoices, Currencies, i, Paid);
        result := AddAll(result, output);
        i := i + 1;
      }
      assert Currencies[..|Currencies|] == Currencies;
    }

    /** `getFailedInvoices`: the FAILED invoices, currency by currency. */
    method GetFailedInvoices() returns (result: seq<Invoice>)
      ensures result == ByCurrency(invoiceService.invoices, Currencies, Failed)
    {
      result := [];
      var i := 0;
      while i < |Currencies|
        invariant 0 <= i <= |Currencies|
        invariant result == ByCurrency(invoiceService.invoices, Currencies[..i], Failed)
      {
        var output := invoiceService.FetchFailedInvoices(Currencies[i]);
        ByCurrencyNext(invoiceService.invoices, Currencies, i, Failed);
        result := AddAll(result, output);
        i := i + 1;
      }
      assert Currencies[..|Currencies|] == Currencies;
    }

    /** `getAuditInfo`: the audit log as the store holds it, oldest row first. */
    function GetAuditInfo(): (r: seq<Audit>)
      reads invoiceService
      ensures r == invoiceService.audits
    {
      invoiceService.FetchAuditTable()
    }
  }
}
