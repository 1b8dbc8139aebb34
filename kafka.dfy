/**
 * The two topics the billing core publishes to, as outboxes: every record
 * a producer sends is appended to the topic it names. Polling is not
 * modelled here: a consumer is handed the batch it polled as a sequence.
 */
module Kafka {

  /** `MY_INVOICE_TOPIC` and `MY_RETRY_TOPIC`. */
  datatype Topic = InvoiceTopic | RetryTopic

  /** A producer record: the partition key (a currency code) and the message text. */
  datatype Record = Record(key: string, value: string)

  class KafkaService {
    var invoiceTopic: seq<Record>
    var retryTopic: seq<Record>

    constructor ()
      ensures invoiceTopic == [] && retryTopic == []
    {
      invoiceTopic, retryTopic := [], [];
    }

    /** `sendMessage`: appends one record to the named topic and to no other. */
    method SendMessage(msg: string, key: string, topic: Topic)
      modifies this
      ensures topic == InvoiceTopic ==> invoiceTopic == old(invoiceTopic) + [Record(key, msg)] && retryTopic == old(retryTopic)
      ensures topic == RetryTopic ==> retryTopic == old(retryTopic) + [Record(key, msg)] && invoiceTopic == old(invoiceTopic)
    {
      if topic == InvoiceTopic {
        invoiceTopic := invoiceTopic + [Record(key, msg)];
      } else {
        retryTopic := retryTopic + [Record(key, msg)];
      }
    }
  }
}
