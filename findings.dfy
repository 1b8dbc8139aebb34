/**
 * Two ways the primary consumer sends an invoice to the retry topic that
 * should not go there, and a corrected consumer step that does not.
 *
 * As written, `processPendingInvoice` routes every `false` from
 * `chargeInvoice` to `processRetry`, but `chargeInvoice` also answers
 * `false` when it refused to charge: a stale PENDING message for an invoice
 * that is already PAID, and a currency mismatch (whose exception the
 * generic handler inside `chargeInvoice` swallows). The corrected step
 * retries only when the provider was actually asked.
 */
module Findings {
  import opened Domain
  import opened Wire
  import opened Store
  import opened Kafka
  import opened Payment
  import opened Engine

  // ---------------------------------------------------------------------
  // As written

  /**
   * A stale PENDING message for a PAID invoice: the primary consumer demotes
   * the invoice to FAILED and publishes it for retry, and the retry consumer
   * then has the provider charge it a second time.
   */
  lemma StaleRedeliveryRecharges(w: World, msg: string, answers: nat -> ProviderReply, inv: Invoice)
    requires DecodeId(msg) == Some(inv.id) && Find(w.invoices, inv.id) == Some(inv)
    requires inv.status == Paid
    requires inv.customerId in w.customers && w.customers[inv.customerId].currency == inv.amount.currency
    ensures var w1 := PendingStep(w, msg, answers);
            var w2 := RetryStep(w1, ToRecord(inv).value, answers).world;
            && Find(w1.invoices, inv.id) == Some(inv.(status := Failed))
            && w1.retryTopic == w.retryTopic + [ToRecord(inv)]
            && w2.charged == w.charged + [inv.(status := Failed)]
  {
    ChargeStatusSkip(w, inv.id, Pending, answers);
    var c := Charge(w, inv.id, Pending, answers);
    var w1 := PendingStep(w, msg, answers);
    FindWithStatus(c.world.invoices, inv.id, Failed, inv.id);
    DecodeEncode(inv);
    assert ChargeAllowed(w1, inv.id, Failed);
  }

  /**
   * The stored invoice 1 is PAID and the dispatcher's PENDING message for it
   * is delivered again: after the two consumers the provider has been asked
   * to charge it once more.
   */
  lemma StaleRedeliveryExample()
    ensures var inv := Invoice(1, 1, Money("100", EUR), Paid);
            var w := World([inv], map[1 := Customer(1, EUR)], [], [], [], []);
            var answers := (n: nat) => Answered(true);
            var w1 := PendingStep(w, Encode(inv.(status := Pending)), answers);
            RetryStep(w1, ToRecord(inv).value, answers).world.charged == [inv.(status := Failed)]
  {
    var inv := Invoice(1, 1, Money("100", EUR), Paid);
    var w := World([inv], map[1 := Customer(1, EUR)], [], [], [], []);
    DecodeEncode(inv.(status := Pending));
    StaleRedeliveryRecharges(w, Encode(inv.(status := Pending)), (n: nat) => Answered(true), inv);
  }

  /**
   * A currency mismatch: `chargeInvoice` swallows the exception and answers
   * `false`, so the invoice is marked FAILED and published for retry after
   * all, without an audit row.
   */
  lemma MismatchRetriedAsWritten(w: World, msg: string, answers: nat -> ProviderReply, inv: Invoice)
    requires DecodeId(msg) == Some(inv.id) && Find(w.invoices, inv.id) == Some(inv)
    requires inv.customerId in w.customers && w.customers[inv.customerId].currency != inv.amount.currency
    ensures var r := PendingStep(w, msg, answers);
            && Find(r.invoices, inv.id) == Some(inv.(status := Failed))
            && r.retryTopic == w.retryTopic + [ToRecord(inv)]
            && r.audits == w.audits && r.charged == w.charged
  {
    ChargeCurrencyMismatch(w, inv.id, Pending, answers);
    FindWithStatus(w.invoices, inv.id, Failed, inv.id);
  }

  // ---------------------------------------------------------------------
  // Corrected

  /**
   * The primary consumer step as intended: a refused charge (stale status,
   * currency mismatch, missing customer) changes nothing beyond what
   * `chargeInvoice` did; only a charge the provider declined or failed on
   * is marked FAILED and retried.
   */
  function PendingStepCorrected(w: World, msg: string, answers: nat -> ProviderReply): World
  {
    match DecodeId(msg)
    case None => w
    case Some(id) =>
      var c := Charge(w, id, Pending, answers);
      if c.paid then
        c.world.(invoices := WithStatus(c.world.invoices, id, Paid))
      else if !ChargeAllowed(w, id, Pending) then
        c.world
      else
        var inv := Find(c.world.invoices, id).value;
        c.world.(invoices := WithStatus(c.world.invoices, id, Failed),
                 retryTopic := c.world.retryTopic + [ToRecord(inv)])
  }

  function ProcessPendingCorrected(w: World, msgs: seq<string>, answers: nat -> ProviderReply): World
  {
    if |msgs| == 0 then w
    else PendingStepCorrected(ProcessPendingCorrected(w, msgs[..|msgs| - 1], answers), msgs[|msgs| - 1], answers)
  }

  /** Wherever the provider was asked, the corrected step is the step as written. */
  lemma CorrectedAgrees(w: World, msg: string, answers: nat -> ProviderReply)
    requires DecodeId(msg).None? || ChargeAllowed(w, DecodeId(msg).value, Pending)
    ensures PendingStepCorrected(w, msg, answers) == PendingStep(w, msg, answers)
  {
  }

  /** A currency mismatch is neither charged, nor retried, nor recorded. */
  lemma CorrectedMismatchIgnored(w: World, msg: string, answers: nat -> ProviderReply, inv: Invoice)
    requires DecodeId(msg) == Some(inv.id) && Find(w.invoices, inv.id) == Some(inv)
    requires inv.customerId in w.customers && w.customers[inv.customerId].currency != inv.amount.currency
    ensures PendingStepCorrected(w, msg, answers) == w
  {
    ChargeCurrencyMismatch(w, inv.id, Pending, answers);
  }

  /** The invoice stored under id k is PAID. */
  predicate PaidAt(w: World, k: int)
  {
    Find(w.invoices, k).Some? && Find(w.invoices, k).value.status == Paid
  }

  /**
   * From w to r the invoice under id k is as it was and the provider was
   * not asked to charge any invoice with that id.
   */
  ghost predicate NeverChargedAgain(w: World, r: World, k: int)
  {
    && Find(r.invoices, k) == Find(w.invoices, k)
    && Extends(w.charged, r.charged)
    && forall j :: |w.charged| <= j < |r.charged| ==> r.charged[j].id != k
  }

  lemma NeverChargedAgainTrans(a: World, b: World, c: World, k: int)
    requires NeverChargedAgain(a, b, k) && NeverChargedAgain(b, c, k)
    ensures NeverChargedAgain(a, c, k)
  {
    assert c.charged[..|a.charged|] == c.charged[..|b.charged|][..|a.charged|];
    forall j | |a.charged| <= j < |c.charged|
      ensures c.charged[j].id != k
    {
      if j < |b.charged| {
        assert c.charged[j] == c.charged[..|b.charged|][j];
      }
    }
  }

  /** A charge attempt that expects PENDING or FAILED never charges a PAID invoice. */
  lemma ChargeSparesPaid(w: World, id: Int32, expected: InvoiceStatus, answers: nat -> ProviderReply, k: int)
    requires expected != Paid && PaidAt(w, k)
    ensures NeverChargedAgain(w, Charge(w, id, expected, answers).world, k)
  {
    var r := Charge(w, id, expected, answers).world;
    assert r.charged[..|w.charged|] == w.charged;
  }

  /** Setting a status on a row other than k, or setting PAID, leaves a PAID invoice as it was. */
  lemma WithStatusSparesPaid(w: World, id: int, s: InvoiceStatus, k: int)
    requires PaidAt(w, k) && (id != k || s == Paid)
    ensures Find(WithStatus(w.invoices, id, s), k) == Find(w.invoices, k)
  {
    FindWithStatus(w.invoices, id, s, k);
  }

  lemma CorrectedStepSparesPaid(w: World, msg: string, answers: nat -> ProviderReply, k: int)
    requires PaidAt(w, k)
    ensures PaidAt(PendingStepCorrected(w, msg, answers), k)
    ensures NeverChargedAgain(w, PendingStepCorrected(w, msg, answers), k)
  {
    match DecodeId(msg)
    case None =>
      assert w.charged[..|w.charged|] == w.charged;
    case Some(id) =>
      var c := Charge(w, id, Pending, answers);
      ChargeSparesPaid(w, id, Pending, answers, k);
      if c.paid {
        WithStatusSparesPaid(c.world, id, Paid, k);
      } else if ChargeAllowed(w, id, Pending) {
        WithStatusSparesPaid(c.world, id, Failed, k);
      }
  }

  lemma RetryStepSparesPaid(w: World, msg: string, answers: nat -> ProviderReply, k: int)
    requires PaidAt(w, k)
    ensures PaidAt(RetryStep(w, msg, answers).world, k)
    ensures NeverChargedAgain(w, RetryStep(w, msg, answers).world, k)
  {
    match DecodeId(msg)
    case None =>
      assert w.charged[..|w.charged|] == w.charged;
    case Some(id) =>
      var c := Charge(w, id, Failed, answers);
      ChargeSparesPaid(w, id, Failed, answers, k);
      if c.paid {
        WithStatusSparesPaid(c.world, id, Paid, k);
        assert RetryStep(w, msg, answers).world == c.world.(invoices := WithStatus(c.world.invoices, id, Paid));
      } else {
        assert RetryStep(w, msg, answers).world == c.world;
      }
  }

  lemma {:induction false} CorrectedBatchSparesPaid(w: World, msgs: seq<string>, answers: nat -> ProviderReply, k: int)
    requires PaidAt(w, k)
    ensures PaidAt(ProcessPendingCorrected(w, msgs, answers), k)
    ensures NeverChargedAgain(w, ProcessPendingCorrected(w, msgs, answers), k)
    decreases |msgs|
  {
    if |msgs| == 0 {
      assert w.charged[..|w.charged|] == w.charged;
    } else {
      var prev := ProcessPendingCorrected(w, msgs[..|msgs| - 1], answers);
      CorrectedBatchSparesPaid(w, msgs[..|msgs| - 1], answers, k);
      CorrectedStepSparesPaid(prev, msgs[|msgs| - 1], answers, k);
      NeverChargedAgainTrans(w, prev, PendingStepCorrected(prev, msgs[|msgs| - 1], answers), k);
    }
  }

  lemma {:induction false} RetryBatchSparesPaid(w: World, msgs: seq<string>, answers: nat -> ProviderReply, k: int)
    requires PaidAt(w, k)
    ensures PaidAt(RetryBatch(w, msgs, answers).world, k)
    ensures NeverChargedAgain(w, RetryBatch(w, msgs, answers).world, k)
    decreases |msgs|
  {
    if |msgs| == 0 {
      assert w.charged[..|w.charged|] == w.charged;
    } else {
      var prev := RetryBatch(w, msgs[..|msgs| - 1], answers);
      RetryBatchSparesPaid(w, msgs[..|msgs| - 1], answers, k);
      if prev.completed {
        RetryStepSparesPaid(prev.world, msgs[|msgs| - 1], answers, k);
        NeverChargedAgainTrans(w, prev.world, RetryStep(prev.world, msgs[|msgs| - 1], answers).world, k);
      }
    }
  }

  /** One poll handed to one of the two consumers. */
  datatype Poll = PrimaryPoll(msgs: seq<string>) | RetryPoll(msgs: seq<string>)

  /** Polls run in order, with the corrected primary consumer. */
  function RunPolls(w: World, polls: seq<Poll>, answers: nat -> ProviderReply): World
  {
    if |polls| == 0 then w
    else
      var prev := RunPolls(w, polls[..|polls| - 1], answers);
      match polls[|polls| - 1]
      case PrimaryPoll(msgs) => ProcessPendingCorrected(prev, msgs, answers)
      case RetryPoll(msgs) => RetryBatch(prev, msgs, answers).world
  }

  /**
   * With the corrected primary consumer, PAID is final: whatever sequence
   * of polls the two consumers are handed, in whatever order and number,
   * an invoice that is PAID stays PAID and is never charged again.
   */
  lemma {:induction false} PaidIsFinal(w: World, polls: seq<Poll>, answers: nat -> ProviderReply, k: int)
    requires PaidAt(w, k)
    ensures PaidAt(RunPolls(w, polls, answers), k)
    ensures NeverChargedAgain(w, RunPolls(w, polls, answers), k)
    decreases |polls|
  {
    if |polls| == 0 {
      assert w.charged[..|w.charged|] == w.charged;
    } else {
      var init := polls[..|polls| - 1];
      var prev := RunPolls(w, init, answers);
      PaidIsFinal(w, init, answers, k);
      match polls[|polls| - 1]
      case PrimaryPoll(msgs) =>
        CorrectedBatchSparesPaid(prev, msgs, answers, k);
        NeverChargedAgainTrans(w, prev, ProcessPendingCorrected(prev, msgs, answers), k);
      case RetryPoll(msgs) =>
        RetryBatchSparesPaid(prev, msgs, answers, k);
        NeverChargedAgainTrans(w, prev, RetryBatch(prev, msgs, answers).world, k);
    }
  }
}
