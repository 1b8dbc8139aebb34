/**
 * The external payment provider, as an oracle: its k-th charge request is
 * answered by `answers(k)`, either a yes/no or an exception. The provider
 * keeps the list of invoices it was asked to charge, which is how the
 * model observes whether, and with what, it was called.
 */
module Payment {
  import opened Domain

  /** What the provider raises instead of answering. */
  datatype ProviderError = NetworkError | CustomerNotFound | CurrencyMismatch | OtherError

  datatype ProviderReply = Answered(charged: bool) | Raised(error: ProviderError)

  class PaymentProvider {
    const answers: nat -> ProviderReply
    var charged: seq<Invoice>

    constructor (answers: nat -> ProviderReply)
      ensures this.answers == answers && charged == []
    {
      this.answers := answers;
      charged := [];
    }

    /** `charge`: records the request and gives the oracle's answer to it. */
    method Charge(invoice: Invoice) returns (reply: ProviderReply)
      modifies this
      ensures charged == old(charged) + [invoice]
      ensures reply == answers(|old(charged)|)
    {
      reply := answers(|charged|);
      charged := charged + [invoice];
    }
  }
}
