/**
 * The billing pipeline as functions over one value, `World`: the invoice
 * and audit tables, the read-only customer table, the list of invoices the
 * payment provider was asked to charge, and the two topics. These are the
 * specifications the methods of `BillingService` are proved against.
 */
module Engine {
  import opened Domain
  import opened Wire
  import opened Store
  import opened Kafka
  import opened Payment

  datatype World = World(
    invoices: seq<Invoice>,
    customers: map<Int32, Customer>,
    audits: seq<Audit>,
    charged: seq<Invoice>,
    invoiceTopic: seq<Record>,
    retryTopic: seq<Record>)

  /** The new world after a charge attempt, and `chargeInvoice`'s result. */
  datatype ChargeStep = ChargeStep(world: World, paid: bool)

  /** The record a producer sends for an invoice: keyed by its currency code. */
  function ToRecord(inv: Invoice): Record
  {
    Record(CurrencyName(inv.amount.currency), Encode(inv))
  }

  /** b continues a: a stays as its prefix. */
  ghost predicate Extends<T>(a: seq<T>, b: seq<T>)
  {
    |a| <= |b| && b[..|a|] == a
  }

  // ---------------------------------------------------------------------
  // Charge engine: chargeInvoice and createAuditEntry

  /**
   * The target status `createAuditEntry` records: PAID on a charge, else
   * FAILED after a first attempt and RETRY_FAILED after any other.
   */
  function AuditTarget(expected: InvoiceStatus, charged: bool): (to: InvoiceStatus)
    ensures to == Paid <==> charged
    ensures !charged ==> (to == Failed <==> expected == Pending)
    ensures !charged && expected != Pending ==> to == RetryFailed
    ensures expected == Pending || expected == Failed ==> IsTransition(expected, to)
  {
    if charged then Paid else if expected == Pending then Failed else RetryFailed
  }

  /**
   * The guard in front of the provider call: the invoice and its customer
   * exist, the stored status is the expected one and the currencies agree.
   */
  predicate ChargeAllowed(w: World, id: Int32, expected: InvoiceStatus)
  {
    match Find(w.invoices, id)
    case None => false
    case Some(inv) =>
      inv.customerId in w.customers
      && inv.status == expected
      && w.customers[inv.customerId].currency == inv.amount.currency
  }

  /**
   * An audit row is written when the check completes: invoice and customer
   * found, currencies agree, and either the status differs (the skip) or the
   * provider answered without raising.
   */
  predicate AuditWritten(w: World, id: Int32, expected: InvoiceStatus, answers: nat -> ProviderReply)
  {
    match Find(w.invoices, id)
    case None => false
    case Some(inv) =>
      inv.customerId in w.customers
      && w.customers[inv.customerId].currency == inv.amount.currency
      && (inv.status != expected || answers(|w.charged|).Answered?)
  }

  /**
   * `chargeInvoice(id, expected)`. A missing invoice or customer, a currency
   * mismatch and a provider exception all end in the catch blocks: `false`
   * and no audit row. A status that differs from the expected one skips the
   * provider but still records an unsuccessful audit row.
   */
  function Charge(w: World, id: Int32, expected: InvoiceStatus, answers: nat -> ProviderReply): (r: ChargeStep)
    ensures r.world.invoices == w.invoices && r.world.customers == w.customers
    ensures r.world.invoiceTopic == w.invoiceTopic && r.world.retryTopic == w.retryTopic
    ensures r.world.charged == if ChargeAllowed(w, id, expected)
                               then w.charged + [Find(w.invoices, id).value] else w.charged
    ensures r.paid <==> ChargeAllowed(w, id, expected) && answers(|w.charged|) == Answered(true)
    ensures r.world.audits == if AuditWritten(w, id, expected, answers)
                              then w.audits + [Audit(id, expected, AuditTarget(expected, r.paid))] else w.audits
  {
    match Find(w.invoices, id)
    case None => ChargeStep(w, false)
    case Some(inv) =>
      if inv.customerId !in w.customers then ChargeStep(w, false)
      else
        var customer := w.customers[inv.customerId];
        if inv.status == expected && customer.currency == inv.amount.currency then
          var asked := w.(charged := w.charged + [inv]);
          match answers(|w.charged|)
          case Raised(_) => ChargeStep(asked, false)
          case Answered(ok) =>
            ChargeStep(asked.(audits := asked.audits + [Audit(id, expected, AuditTarget(expected, ok))]), ok)
        else if customer.currency != inv.amount.currency then
          ChargeStep(w, false)
        else
          ChargeStep(w.(audits := w.audits + [Audit(id, expected, AuditTarget(expected, false))]), false)
  }

  /** A currency mismatch never reaches the provider and leaves no trace. */
  lemma ChargeCurrencyMismatch(w: World, id: Int32, expected: InvoiceStatus, answers: nat -> ProviderReply)
    requires Find(w.invoices, id).Some?
    requires var inv := Find(w.invoices, id).value;
             inv.customerId in w.customers && w.customers[inv.customerId].currency != inv.amount.currency
    ensures Charge(w, id, expected, answers) == ChargeStep(w, false)
  {
  }

  /** An unknown id, or an invoice whose customer is unknown, changes nothing. */
  lemma ChargeNotFound(w: World, id: Int32, expected: InvoiceStatus, answers: nat -> ProviderReply)
    requires Find(w.invoices, id).None? || Find(w.invoices, id).value.customerId !in w.customers
    ensures Charge(w, id, expected, answers) == ChargeStep(w, false)
  {
  }

  /** A provider exception counts as `false` and skips the audit row. */
  lemma ChargeProviderError(w: World, id: Int32, expected: InvoiceStatus, answers: nat -> ProviderReply)
    requires ChargeAllowed(w, id, expected) && answers(|w.charged|).Raised?
    ensures var r := Charge(w, id, expected, answers);
            !r.paid && r.world.audits == w.audits && |r.world.charged| == |w.charged| + 1
  {
  }

  /** A stale status is a skip: no provider call, an unsuccessful audit row. */
  lemma ChargeStatusSkip(w: World, id: Int32, expected: InvoiceStatus, answers: nat -> ProviderReply)
    requires Find(w.invoices, id).Some?
    requires var inv := Find(w.invoices, id).value;
             inv.customerId in w.customers && w.customers[inv.customerId].currency == inv.amount.currency
             && inv.status != expected
    ensures var r := Charge(w, id, expected, answers);
            !r.paid && r.world.charged == w.charged
            && r.world.audits == w.audits + [Audit(id, expected, if expected == Pending then Failed else RetryFailed)]
  {
  }

  /**
   * Redelivery: once a successful charge has been followed by the consumer's
   * status update, the same request again is refused without a provider call.
   */
  lemma ChargeRedelivery(w: World, id: Int32, expected: InvoiceStatus, answers: nat -> ProviderReply)
    requires expected != Paid
    requires Charge(w, id, expected, answers).paid
    ensures var c := Charge(w, id, expected, answers);
            var w1 := c.world.(invoices := WithStatus(c.world.invoices, id, Paid));
            var again := Charge(w1, id, expected, answers);
            !again.paid && again.world.charged == w1.charged
  {
    var c := Charge(w, id, expected, answers);
    FindWithStatus(c.world.invoices, id, Paid, id);
  }

  // ---------------------------------------------------------------------
  // Primary consumer: processPendingInvoice, processRetry, updateStatus

  /**
   * One message of `processPendingInvoice`: charge with expected PENDING;
   * on success set PAID; otherwise re-fetch the invoice, set FAILED and
   * publish the fetched copy to the retry topic. An unparsable id or a
   * missing invoice ends in the generic catch, after whatever was done.
   */
  function PendingStep(w: World, msg: string, answers: nat -> ProviderReply): World
  {
    match DecodeId(msg)
    case None => w
    case Some(id) =>
      var c := Charge(w, id, Pending, answers);
      if c.paid then
        c.world.(invoices := WithStatus(c.world.invoices, id, Paid))
      else
        match Find(c.world.invoices, id)
        case None => c.world
        case Some(inv) =>
          c.world.(invoices := WithStatus(c.world.invoices, inv.id, Failed),
                   retryTopic := c.world.retryTopic + [ToRecord(inv)])
  }

  /** The messages of one poll, in order. */
  function ProcessPending(w: World, msgs: seq<string>, answers: nat -> ProviderReply): World
  {
    if |msgs| == 0 then w
    else PendingStep(ProcessPending(w, msgs[..|msgs| - 1], answers), msgs[|msgs| - 1], answers)
  }

  /**
   * What a run of consumer steps with expected status `from` keeps: the
   * customers and the invoice topic, every invoice but its status, and the
   * earlier audit rows and provider calls; the new audit rows are legal
   * transitions out of `from`, and the provider only saw invoices in that status.
   */
  ghost predicate ChargeFrame(w: World, r: World, from: InvoiceStatus)
  {
    && r.customers == w.customers
    && r.invoiceTopic == w.invoiceTopic
    && SameButStatus(w.invoices, r.invoices)
    && Extends(w.audits, r.audits)
    && (forall k :: |w.audits| <= k < |r.audits| ==>
          r.audits[k].fromStatus == from && IsTransition(from, r.audits[k].toStatus))
    && Extends(w.charged, r.charged)
    && (forall k :: |w.charged| <= k < |r.charged| ==> r.charged[k].status == from)
  }

  lemma ChargeFrameTrans(a: World, b: World, c: World, from: InvoiceStatus)
    requires ChargeFrame(a, b, from) && ChargeFrame(b, c, from)
    ensures ChargeFrame(a, c, from)
  {
    assert c.audits[..|a.audits|] == c.audits[..|b.audits|][..|a.audits|];
    assert c.charged[..|a.charged|] == c.charged[..|b.charged|][..|a.charged|];
    forall k | |a.audits| <= k < |c.audits|
      ensures c.audits[k].fromStatus == from && IsTransition(from, c.audits[k].toStatus)
    {
      if k < |b.audits| {
        assert c.audits[k] == c.audits[..|b.audits|][k];
      }
    }
    forall k | |a.charged| <= k < |c.charged|
      ensures c.charged[k].status == from
    {
      if k < |b.charged| {
        assert c.charged[k] == c.charged[..|b.charged|][k];
      }
    }
  }

  lemma ChargeKeepsFrame(w: World, id: Int32, from: InvoiceStatus, answers: nat -> ProviderReply)
    requires from == Pending || from == Failed
    ensures ChargeFrame(w, Charge(w, id, from, answers).world, from)
  {
    var r := Charge(w, id, from, answers).world;
    assert r.audits[..|w.audits|] == w.audits;
    assert r.charged[..|w.charged|] == w.charged;
  }

  /** A status update, with whatever is published beside it, keeps the frame. */
  lemma WithStatusKeepsFrame(w: World, id: int, s: InvoiceStatus, retry: seq<Record>, from: InvoiceStatus)
    ensures ChargeFrame(w, w.(invoices := WithStatus(w.invoices, id, s), retryTopic := retry), from)
  {
    assert w.audits[..|w.audits|] == w.audits;
    assert w.charged[..|w.charged|] == w.charged;
  }

  /** What one primary-consumer step keeps, and how little it may add. */
  lemma PendingStepFrame(w: World, msg: string, answers: nat -> ProviderReply)
    ensures var r := PendingStep(w, msg, answers);
            ChargeFrame(w, r, Pending)
            && |r.audits| <= |w.audits| + 1
            && |r.charged| <= |w.charged| + 1
            && Extends(w.retryTopic, r.retryTopic) && |r.retryTopic| <= |w.retryTopic| + 1
  {
    match DecodeId(msg)
    case None =>
      assert w.audits[..|w.audits|] == w.audits && w.charged[..|w.charged|] == w.charged;
      assert w.retryTopic[..|w.retryTopic|] == w.retryTopic;
    case Some(id) =>
      var c := Charge(w, id, Pending, answers);
      var r := PendingStep(w, msg, answers);
      ChargeKeepsFrame(w, id, Pending, answers);
      if c.paid {
        WithStatusKeepsFrame(c.world, id, Paid, w.retryTopic, Pending);
      } else if Find(c.world.invoices, id).None? {
        WithStatusKeepsFrame(c.world, id, Failed, w.retryTopic, Pending);
        WithStatusAbsent(c.world.invoices, id, Failed);
      } else {
        WithStatusKeepsFrame(c.world, id, Failed, r.retryTopic, Pending);
      }
      ChargeFrameTrans(w, c.world, r, Pending);
      assert r.retryTopic[..|w.retryTopic|] == w.retryTopic;
  }

  /**
   * A primary-consumer batch keeps the customers, the invoice topic and every
   * invoice but its status; it only appends audit rows out of PENDING, only
   * asks the provider to charge PENDING invoices, and publishes at most one
   * retry record per message.
   */
  lemma {:induction false} ProcessPendingFrame(w: World, msgs: seq<string>, answers: nat -> ProviderReply)
    ensures var r := ProcessPending(w, msgs, answers);
            ChargeFrame(w, r, Pending)
            && |r.charged| <= |w.charged| + |msgs|
            && Extends(w.retryTopic, r.retryTopic) && |r.retryTopic| <= |w.retryTopic| + |msgs|
    decreases |msgs|
  {
    if |msgs| > 0 {
      var prev := ProcessPending(w, msgs[..|msgs| - 1], answers);
      ProcessPendingFrame(w, msgs[..|msgs| - 1], answers);
      PendingStepFrame(prev, msgs[|msgs| - 1], answers);
      var r := PendingStep(prev, msgs[|msgs| - 1], answers);
      ChargeFrameTrans(w, prev, r, Pending);
      assert r.retryTopic[..|w.retryTopic|] == r.retryTopic[..|prev.retryTopic|][..|w.retryTopic|];
    }
  }

  /**
   * The outcome for one well-formed message of a stored invoice: PAID, or
   * FAILED with exactly one retry record for the invoice as it was fetched,
   * keyed by its currency.
   */
  lemma PendingStepOutcome(w: World, msg: string, answers: nat -> ProviderReply, inv: Invoice)
    requires DecodeId(msg).Some? && Find(w.invoices, DecodeId(msg).value) == Some(inv)
    ensures var r := PendingStep(w, msg, answers);
            var paid := Charge(w, inv.id, Pending, answers).paid;
            && Find(r.invoices, inv.id) == Some(inv.(status := if paid then Paid else Failed))
            && r.retryTopic == (if paid then w.retryTopic else w.retryTopic + [ToRecord(inv)])
  {
    var id := DecodeId(msg).value;
    var c := Charge(w, id, Pending, answers);
    FindWithStatus(c.world.invoices, id, if c.paid then Paid else Failed, id);
  }

  /**
   * A successful first charge leaves exactly one new audit row,
   * PENDING to PAID, and the invoice PAID.
   */
  lemma PendingStepPaid(w: World, msg: string, answers: nat -> ProviderReply)
    requires DecodeId(msg).Some? && Charge(w, DecodeId(msg).value, Pending, answers).paid
    ensures var id := DecodeId(msg).value;
            var r := PendingStep(w, msg, answers);
            && r.audits == w.audits + [Audit(id, Pending, Paid)]
            && Find(r.invoices, id).Some? && Find(r.invoices, id).value.status == Paid
            && r.retryTopic == w.retryTopic
  {
    var id := DecodeId(msg).value;
    var c := Charge(w, id, Pending, answers);
    FindWithStatus(c.world.invoices, id, Paid, id);
  }

  // ---------------------------------------------------------------------
  // Retry consumer: retryInvoices, processFailedRetry

  /** `processFailedRetry`: the notice the support stub reports. */
  const SupportNotice := "Email sent to Pleo Support & Consumer"

  function ProcessFailedRetry(id: Int32): (notice: string)
  {
    SupportNotice
  }

  /**
   * The retry run: the world after it, the ids handed to the notification
   * stub, and whether the batch ran to its end (`retryInvoices` has no
   * catch around `msg[0].toInt()`, so an unparsable id ends the batch).
   */
  datatype RetryRun = RetryRun(world: World, notified: seq<Int32>, completed: bool)

  /** One message of `retryInvoices`: charge with expected FAILED; PAID, or notify. */
  function RetryStep(w: World, msg: string, answers: nat -> ProviderReply): RetryRun
  {
    match DecodeId(msg)
    case None => RetryRun(w, [], false)
    case Some(id) =>
      var c := Charge(w, id, Failed, answers);
      if c.paid then RetryRun(c.world.(invoices := WithStatus(c.world.invoices, id, Paid)), [], true)
      else RetryRun(c.world, [id], true)
  }

  function RetryBatch(w: World, msgs: seq<string>, answers: nat -> ProviderReply): RetryRun
  {
    if |msgs| == 0 then RetryRun(w, [], true)
    else
      var prev := RetryBatch(w, msgs[..|msgs| - 1], answers);
      if !prev.completed then prev
      else
        var step := RetryStep(prev.world, msgs[|msgs| - 1], answers);
        RetryRun(step.world, prev.notified + step.notified, step.completed)
  }

  /** Once a retry batch has stopped, the messages after the bad one are never read. */
  lemma {:induction false} RetryBatchStops(w: World, msgs: seq<string>, k: nat, answers: nat -> ProviderReply)
    requires k <= |msgs| && !RetryBatch(w, msgs[..k], answers).completed
    ensures RetryBatch(w, msgs, answers) == RetryBatch(w, msgs[..k], answers)
    decreases |msgs| - k
  {
    if k < |msgs| {
      assert msgs[..k + 1][..k] == msgs[..k];
      RetryBatchStops(w, msgs, k + 1, answers);
    } else {
      assert msgs[..k] == msgs;
    }
  }

  /**
   * What a retry run keeps besides `ChargeFrame`: both topics untouched
   * (the retry consumer never republishes) and no status set but PAID.
   */
  ghost predicate RetryFrame(w: World, r: World)
  {
    && ChargeFrame(w, r, Failed)
    && r.retryTopic == w.retryTopic
    && (forall i :: 0 <= i < |w.invoices| ==>
          r.invoices[i].status == w.invoices[i].status || r.invoices[i].status == Paid)
  }

  lemma RetryStepFrame(w: World, msg: string, answers: nat -> ProviderReply)
    ensures var s := RetryStep(w, msg, answers);
            RetryFrame(w, s.world)
            && (s.completed <==> DecodeId(msg).Some?)
            && |s.notified| <= 1
  {
    match DecodeId(msg)
    case None =>
      assert w.audits[..|w.audits|] == w.audits && w.charged[..|w.charged|] == w.charged;
    case Some(id) =>
      var c := Charge(w, id, Failed, answers);
      ChargeKeepsFrame(w, id, Failed, answers);
      if c.paid {
        var r := c.world.(invoices := WithStatus(c.world.invoices, id, Paid));
        WithStatusKeepsFrame(c.world, id, Paid, c.world.retryTopic, Failed);
        ChargeFrameTrans(w, c.world, r, Failed);
      }
  }

  /**
   * A retry batch publishes nothing, only ever sets PAID, appends audit rows
   * out of FAILED only, asks the provider to charge FAILED invoices only, and
   * hands at most one id per message to the notification stub.
   */
  lemma {:induction false} RetryBatchFrame(w: World, msgs: seq<string>, answers: nat -> ProviderReply)
    ensures var r := RetryBatch(w, msgs, answers);
            RetryFrame(w, r.world) && |r.notified| <= |msgs|
    decreases |msgs|
  {
    if |msgs| > 0 {
      var init := msgs[..|msgs| - 1];
      var prev := RetryBatch(w, init, answers);
      RetryBatchFrame(w, init, answers);
      if prev.completed {
        var step := RetryStep(prev.world, msgs[|msgs| - 1], answers);
        RetryStepFrame(prev.world, msgs[|msgs| - 1], answers);
        ChargeFrameTrans(w, prev.world, step.world, Failed);
      }
    }
  }

  lemma RetryStepCompleted(w: World, msg: string, answers: nat -> ProviderReply)
    ensures RetryStep(w, msg, answers).completed <==> DecodeId(msg).Some?
  {
  }

  /** A retry batch runs to its end exactly when every message's field 0 parses. */
  lemma {:induction false} RetryBatchCompleted(w: World, msgs: seq<string>, answers: nat -> ProviderReply)
    ensures RetryBatch(w, msgs, answers).completed <==> forall i :: 0 <= i < |msgs| ==> DecodeId(msgs[i]).Some?
    decreases |msgs|
  {
    if |msgs| > 0 {
      var init, last := msgs[..|msgs| - 1], msgs[|msgs| - 1];
      RetryBatchCompleted(w, init, answers);
      var prev := RetryBatch(w, init, answers);
      if prev.completed {
        RetryStepCompleted(prev.world, last, answers);
        assert forall i :: 0 <= i < |init| ==> init[i] == msgs[i];
      } else {
        var k :| 0 <= k < |init| && DecodeId(init[k]).None?;
        assert msgs[k] == init[k];
      }
    }
  }

  /**
   * A second failure: the audit row says FAILED to RETRY_FAILED, the
   * support stub is notified with the notice the source returns, and no
   * record is published.
   */
  lemma RetryStepFailure(w: World, msg: string, answers: nat -> ProviderReply)
    requires DecodeId(msg).Some? && ChargeAllowed(w, DecodeId(msg).value, Failed)
    requires answers(|w.charged|) == Answered(false)
    ensures var id := DecodeId(msg).value;
            var s := RetryStep(w, msg, answers);
            && s.world.audits == w.audits + [Audit(id, Failed, RetryFailed)]
            && s.notified == [id] && ProcessFailedRetry(id) == "Email sent to Pleo Support & Consumer"
            && s.world.retryTopic == w.retryTopic && s.world.invoiceTopic == w.invoiceTopic
            && s.world.invoices == w.invoices
  {
  }

  /**
   * The outcome for one well-formed retry message of a stored invoice:
   * PAID with nobody notified, or every other result (a decline, a provider
   * exception, a stale status, a missing customer) notifies support about
   * that id and leaves the invoice rows as they were.
   */
  lemma RetryStepOutcome(w: World, msg: string, answers: nat -> ProviderReply, inv: Invoice)
    requires DecodeId(msg).Some? && Find(w.invoices, DecodeId(msg).value) == Some(inv)
    ensures var s := RetryStep(w, msg, answers);
            var paid := Charge(w, inv.id, Failed, answers).paid;
            && s.completed
            && (paid ==> Find(s.world.invoices, inv.id) == Some(inv.(status := Paid)) && s.notified == [])
            && (!paid ==> s.world.invoices == w.invoices && s.notified == [inv.id])
  {
    var id := DecodeId(msg).value;
    var c := Charge(w, id, Failed, answers);
    FindWithStatus(c.world.invoices, id, Paid, id);
  }

  // ---------------------------------------------------------------------
  // Dispatcher and listings: processInvoices, getPaidInvoices, getFailedInvoices

  /** The records for a list of invoices, one each, in order. */
  function Records(invs: seq<Invoice>): (r: seq<Record>)
    ensures |r| == |invs| && forall i :: 0 <= i < |invs| ==> r[i] == ToRecord(invs[i])
  {
    if |invs| == 0 then [] else [ToRecord(invs[0])] + Records(invs[1..])
  }

  /** One more invoice sent appends its record. */
  lemma RecordsNext(invs: seq<Invoice>, j: int)
    requires 0 <= j < |invs|
    ensures Records(invs[..j + 1]) == Records(invs[..j]) + [ToRecord(invs[j])]
  {
    assert invs[..j + 1] == invs[..j] + [invs[j]];
    RecordsAppend(invs[..j], [invs[j]]);
  }

  lemma RecordsAppend(a: seq<Invoice>, b: seq<Invoice>)
    ensures Records(a + b) == Records(a) + Records(b)
  {
  }

  /**
   * `processInvoices`, one currency after another: the records of the
   * pending invoices of each currency in cs, in table order.
   */
  function Dispatched(rows: seq<Invoice>, cs: seq<Currency>): seq<Record>
  {
    if |cs| == 0 then []
    else Dispatched(rows, cs[..|cs| - 1]) + Records(Select(rows, cs[|cs| - 1], Pending))
  }

  /** One more currency dispatched appends that currency's pending records. */
  lemma DispatchedNext(rows: seq<Invoice>, cs: seq<Currency>, i: int)
    requires 0 <= i < |cs|
    ensures Dispatched(rows, cs[..i + 1]) == Dispatched(rows, cs[..i]) + Records(Select(rows, cs[i], Pending))
  {
    assert cs[..i + 1][..i] == cs[..i];
  }

  lemma {:induction false} DispatchedByCurrency(rows: seq<Invoice>, cs: seq<Currency>)
    ensures Dispatched(rows, cs) == Records(ByCurrency(rows, cs, Pending))
    decreases |cs|
  {
    if |cs| > 0 {
      DispatchedByCurrency(rows, cs[..|cs| - 1]);
      RecordsAppend(ByCurrency(rows, cs[..|cs| - 1], Pending), Select(rows, cs[|cs| - 1], Pending));
    }
  }

  /** The dispatcher publishes one record per PENDING invoice, in number. */
  lemma DispatchCount(rows: seq<Invoice>)
    ensures |Dispatched(rows, Currencies)| == |Having(rows, Pending)|
  {
    DispatchedByCurrency(rows, Currencies);
    AllCurrencies(rows, Pending);
  }

  /** Every PENDING invoice has its record dispatched. */
  lemma DispatchCovers(rows: seq<Invoice>, inv: Invoice)
    requires inv in rows && inv.status == Pending
    ensures ToRecord(inv) in Dispatched(rows, Currencies)
  {
    DispatchedByCurrency(rows, Currencies);
    AllCurrencies(rows, Pending);
    var b := ByCurrency(rows, Currencies, Pending);
    var i :| 0 <= i < |b| && b[i] == inv;
    assert Records(b)[i] == ToRecord(inv);
  }

  /**
   * Every dispatched record comes from a PENDING invoice: keyed by its
   * currency, and decoding to its id.
   */
  lemma DispatchSound(rows: seq<Invoice>, r: Record)
    requires r in Dispatched(rows, Currencies)
    ensures exists inv :: inv in rows && inv.status == Pending && r == ToRecord(inv)
                          && r.key == CurrencyName(inv.amount.currency) && DecodeId(r.value) == Some(inv.id)
  {
    DispatchedByCurrency(rows, Currencies);
    AllCurrencies(rows, Pending);
    var b := ByCurrency(rows, Currencies, Pending);
    var i :| 0 <= i < |b| && Records(b)[i] == r;
    assert b[i] in b;
    DecodeEncode(b[i]);
  }

  /**
   * The dispatcher publishes one record per PENDING invoice, no more and no
   * fewer: each keyed by the invoice's currency, each decoding to its id.
   */
  lemma DispatchOnePerPending(rows: seq<Invoice>)
    ensures |Dispatched(rows, Currencies)| == |Having(rows, Pending)|
    ensures forall inv :: inv in rows && inv.status == Pending ==> ToRecord(inv) in Dispatched(rows, Currencies)
    ensures forall r :: r in Dispatched(rows, Currencies) ==>
              exists inv :: inv in rows && inv.status == Pending && r == ToRecord(inv)
                            && r.key == CurrencyName(inv.amount.currency) && DecodeId(r.value) == Some(inv.id)
  {
    DispatchCount(rows);
    forall inv | inv in rows && inv.status == Pending
      ensures ToRecord(inv) in Dispatched(rows, Currencies)
    {
      DispatchCovers(rows, inv);
    }
    forall r | r in Dispatched(rows, Currencies)
      ensures exists inv :: inv in rows && inv.status == Pending && r == ToRecord(inv)
                            && r.key == CurrencyName(inv.amount.currency) && DecodeId(r.value) == Some(inv.id)
    {
      DispatchSound(rows, r);
    }
  }

  /** Three pending invoices in three currencies give exactly three records. */
  lemma DispatchThreeCurrencies()
    ensures var rows := [Invoice(23, 1, Money("10", EUR), Pending),
                         Invoice(24, 2, Money("100", GBP), Pending),
                         Invoice(25, 3, Money("1000", SEK), Pending)];
            |Dispatched(rows, Currencies)| == 3
  {
    var rows := [Invoice(23, 1, Money("10", EUR), Pending),
                 Invoice(24, 2, Money("100", GBP), Pending),
                 Invoice(25, 3, Money("1000", SEK), Pending)];
    DispatchOnePerPending(rows);
    assert Having(rows[3..], Pending) == [];
    assert Having(rows[2..], Pending) == [rows[2]] + Having(rows[3..], Pending);
    assert Having(rows[1..], Pending) == [rows[1]] + Having(rows[2..], Pending);
    assert Having(rows, Pending) == [rows[0]] + Having(rows[1..], Pending);
  }

  /** `processInvoices` adds the dispatched records to the invoice topic and changes nothing else. */
  function Dispatch(w: World): World
  {
    w.(invoiceTopic := w.invoiceTopic + Dispatched(w.invoices, Currencies))
  }
}
