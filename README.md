# Antaeus invoice charging pipeline in Dafny

This project models the invoice charging core of Antaeus. The pieces are:

- the **dispatcher** (`processInvoices`), which publishes every PENDING invoice, currency by currency, to the invoice topic;
- the **primary consumer** (`processPendingInvoice`), which charges each message's invoice with expected status PENDING, sets PAID on success, and otherwise sets FAILED and publishes the invoice to the retry topic;
- the **retry consumer** (`retryInvoices`), which charges with expected status FAILED, sets PAID on success, and otherwise calls the support notification stub;
- the **charge engine** (`chargeInvoice` with `createAuditEntry`), which re-reads the invoice and its customer, asks the payment provider only when the stored status is the expected one and the currencies agree, and appends one audit row per completed check;
- the **wire format** `id|customerId|status|value|currency` and the consumers' decoding of field 0;
- the **invoice store** behind `InvoiceService`: an invoice table in table order, an append-only audit table, and the queries of the data access layer.

Layout:

- `domain.dfy`: money, invoices, customers, audit rows, the currency and status enumerations.
- `wire.dfy`: Kotlin's `Int.toString()`, `String.toInt()` and `split("|")`, the message encoder, and the id decoder.
- `store.dfy`: `InvoiceService` as a class over the two tables; the DAL queries as functions; the read-only customer table.
- `kafka.dfy`: the two topics as outboxes.
- `payment.dfy`: the payment provider as an oracle. Its k-th request is answered by `answers(k)`, either a yes/no or an exception. It logs every invoice it was asked to charge.
- `engine.dfy`: the whole pipeline as functions over one value, `World`, plus the properties proved about those functions.
- `billing.dfy`: `BillingService` as a class. Each method is proved to leave the services in the state the matching `Engine` function computes.
- `findings.dfy`: two defects of the primary consumer as written, and a corrected consumer step with its intended property.

Where the code and the design description disagree, the model follows the code:

- A stale status (the stored status is not the expected one) still writes an unsuccessful audit row. `createAuditEntry` runs after the `if`/`else` in `chargeInvoice`.
- A currency mismatch is not signalled to the consumer. The generic handler inside `chargeInvoice` catches `CurrencyMismatchException`, so the primary consumer treats it like a decline and publishes a retry. The consumer's own `CurrencyMismatchException` handler is unreachable.
- `retryInvoices` has no handler around `msg[0].toInt()`. A message whose field 0 is not an `Int` ends the whole batch, and `RetryBatch` reports `completed = false`.
- A second failure writes the audit row FAILED to RETRY_FAILED, but the invoice row stays FAILED. No code sets RETRY_FAILED on the invoice.
- A provider exception is caught before `createAuditEntry`, so it leaves no audit row.

## Model

| member | source | states |
|---|---|---|
| Wire.ParseIntToString | pleo-antaeus-core/src/main/kotlin/io/pleo/antaeus/core/services/BillingService.kt:51 | Parsing an `Int`'s decimal text with `toInt` gives back that `Int`, negatives and `Int.MIN_VALUE` included. |
| Wire.ParseInt | pleo-antaeus-core/src/main/kotlin/io/pleo/antaeus/core/services/BillingService.kt:68 | `toInt` rejects the empty string. A text of digits, with an optional sign, is accepted exactly when its value fits in an `Int`, and then the result is that value. |
| Wire.IntToString | pleo-antaeus-core/src/main/kotlin/io/pleo/antaeus/core/services/BillingService.kt:51 | `Int.toString()` is never empty, holds no `\|`, and starts with `-` exactly for a negative number. `Wire.ParseIntToString` proves `toInt` inverts it. |
| Wire.Split | pleo-antaeus-core/src/main/kotlin/io/pleo/antaeus/core/services/BillingService.kt:65 | `split("\|")` yields at least one field, no field holds a `\|`, and joining the fields with `\|` gives back the input. |
| Wire.SplitJoin | pleo-antaeus-core/src/main/kotlin/io/pleo/antaeus/core/services/BillingService.kt:65 | Splitting undoes joining whenever no field holds a `\|`. |
| Wire.Encode | pleo-antaeus-core/src/main/kotlin/io/pleo/antaeus/core/services/BillingService.kt:48-57 | The message text of line 51. It has no contract of its own; `Wire.EncodeFields`, `Wire.DecodeEncode` and `Wire.EncodeExample` specify it. |
| Wire.EncodeFields | pleo-antaeus-core/src/main/kotlin/io/pleo/antaeus/core/services/BillingService.kt:48-57 | An encoded invoice splits into exactly its five fields: id, customer id, status name, amount text, currency name. |
| Wire.DecodeEncode | pleo-antaeus-core/src/main/kotlin/io/pleo/antaeus/core/services/BillingService.kt:65-68 | Field 0 of an encoded invoice parses to that invoice's id, which is the id the consumers charge. |
| Wire.DecodeId | pleo-antaeus-core/src/main/kotlin/io/pleo/antaeus/core/services/BillingService.kt:65-68 | `msg[0].toInt()`. It has no contract of its own; `Wire.DecodeEncode` proves it gives back the id of any encoded invoice. |
| Wire.EncodeExample | pleo-antaeus-core/src/test/kotlin/io/pleo/antaeus/core/services/BillingServiceTest.kt:36-41 | Invoice {23, 23, 1000 EUR, PENDING} encodes to `23\|23\|PENDING\|1000\|EUR`. |
| Store.Find | pleo-antaeus-data/src/main/kotlin/io/pleo/antaeus/data/AntaeusDal.kt:18-27 | The lookup is empty exactly when no row has the id. Otherwise it is the first row with that id. |
| Store.FindStored | pleo-antaeus-data/src/main/kotlin/io/pleo/antaeus/data/AntaeusDal.kt:18-27 | With distinct ids, a lookup returns x exactly when x is a stored row. |
| Store.Select | pleo-antaeus-data/src/main/kotlin/io/pleo/antaeus/data/AntaeusDal.kt:80-86 | The query `currency = c and status = s` returns every matching row as often as the table holds it, and nothing else. |
| Store.InvoiceService.Fetch | pleo-antaeus-core/src/main/kotlin/io/pleo/antaeus/core/services/InvoiceService.kt:22-24 | `fetch` returns a stored invoice with that id. It is not-found exactly when no stored invoice has the id. |
| Store.InvoiceService.FetchAll | pleo-antaeus-core/src/main/kotlin/io/pleo/antaeus/core/services/InvoiceService.kt:18-20 | Every stored invoice, as many as the table holds, each one what `fetch` returns for its id. |
| Store.InvoiceService.FetchPendingInvoices | pleo-antaeus-core/src/main/kotlin/io/pleo/antaeus/core/services/InvoiceService.kt:26-29 | Exactly the invoices of currency c with status PENDING, each as often as stored. |
| Store.InvoiceService.FetchPaidInvoices | pleo-antaeus-core/src/main/kotlin/io/pleo/antaeus/core/services/InvoiceService.kt:36-39 | Exactly the invoices of currency c with status PAID, each as often as stored. |
| Store.InvoiceService.FetchFailedInvoices | pleo-antaeus-core/src/main/kotlin/io/pleo/antaeus/core/services/InvoiceService.kt:42-45 | Exactly the invoices of currency c with status FAILED, each as often as stored. |
| Store.WithStatus | pleo-antaeus-data/src/main/kotlin/io/pleo/antaeus/data/AntaeusDal.kt:88-94 | Position by position, the rows with that id get the new status and every other row is unchanged. |
| Store.FindWithStatus | pleo-antaeus-data/src/main/kotlin/io/pleo/antaeus/data/AntaeusDal.kt:88-94 | After an update, a lookup of that id sees the new status, and a lookup of any other id sees what it saw before. |
| Store.WithStatusAbsent | pleo-antaeus-data/src/main/kotlin/io/pleo/antaeus/data/AntaeusDal.kt:88-94 | Updating an id that is not stored leaves the table unchanged. |
| Store.InvoiceService.UpdateInvoice | pleo-antaeus-core/src/main/kotlin/io/pleo/antaeus/core/services/InvoiceService.kt:31-34 | Only the status of the rows with that id changes; amount, customer, other rows and the audit table stay, and distinct ids stay distinct. |
| Store.InvoiceService.CreateAudit | pleo-antaeus-core/src/main/kotlin/io/pleo/antaeus/core/services/InvoiceService.kt:47-50 | Appends exactly the row (id, from, to). Earlier rows and all invoices are untouched. |
| Store.InvoiceService.FetchAuditTable | pleo-antaeus-core/src/main/kotlin/io/pleo/antaeus/core/services/InvoiceService.kt:52-55 | All audit rows, oldest first, without changing the store. |
| Store.ByCurrencyCount | pleo-antaeus-core/src/main/kotlin/io/pleo/antaeus/core/services/BillingService.kt:160-170 | One query per distinct currency yields each row of status s whose currency is among them, exactly as often as it is stored. |
| Store.AllCurrencies | pleo-antaeus-core/src/main/kotlin/io/pleo/antaeus/core/services/BillingService.kt:160-183 | Querying every currency in enumeration order gives exactly the rows with status s: the same multiset, the same length, the same members. |
| Store.CustomerService.Fetch | pleo-antaeus-core/src/main/kotlin/io/pleo/antaeus/core/services/BillingService.kt:106 | The customer lookup is empty exactly when no customer has that id. Otherwise it is the stored customer. |
| Kafka.KafkaService.SendMessage | pleo-antaeus-core/src/main/kotlin/io/pleo/antaeus/core/services/KafkaService.kt:46-48 | Appends the record (key, message) to the named topic and to no other. |
| Payment.PaymentProvider.Charge | pleo-antaeus-core/src/main/kotlin/io/pleo/antaeus/core/services/BillingService.kt:108 | The provider logs the invoice it was asked to charge and gives the oracle's answer to that request. |
| Engine.AuditTarget | pleo-antaeus-core/src/main/kotlin/io/pleo/antaeus/core/services/BillingService.kt:140-158 | The target is PAID exactly when charged. Otherwise it is FAILED exactly when the expected status was PENDING, and RETRY_FAILED otherwise. From PENDING or FAILED it is always a legal transition. |
| Engine.Charge | pleo-antaeus-core/src/main/kotlin/io/pleo/antaeus/core/services/BillingService.kt:100-138 | The provider is asked exactly when the invoice and customer exist, the stored status is the expected one and the currencies agree, and it is asked about the stored invoice. The result is true exactly when it was asked and answered yes. An audit row (id, expected, target) is appended exactly when the check completed. Invoices, customers and topics never change. |
| Engine.ChargeCurrencyMismatch | pleo-antaeus-core/src/main/kotlin/io/pleo/antaeus/core/services/BillingService.kt:110-113 | A currency mismatch returns false with no provider call and no audit row: the world is unchanged. |
| Engine.ChargeNotFound | pleo-antaeus-core/src/main/kotlin/io/pleo/antaeus/core/services/BillingService.kt:122-124 | An unknown invoice, or an invoice whose customer is unknown, returns false and changes nothing. |
| Engine.ChargeProviderError | pleo-antaeus-core/src/main/kotlin/io/pleo/antaeus/core/services/BillingService.kt:125-130 | A provider exception returns false and writes no audit row. It still counts as one provider call. |
| Engine.ChargeStatusSkip | pleo-antaeus-core/src/main/kotlin/io/pleo/antaeus/core/services/BillingService.kt:114-120 | A stale status skips the provider and appends the unsuccessful audit row: FAILED after PENDING, RETRY_FAILED otherwise. |
| Engine.ChargeRedelivery | pleo-antaeus-core/src/main/kotlin/io/pleo/antaeus/core/services/BillingService.kt:105 | Once a successful charge has been followed by the PAID update, the same request again is refused without a provider call. |
| Engine.ChargeKeepsFrame | pleo-antaeus-core/src/main/kotlin/io/pleo/antaeus/core/services/BillingService.kt:100-138 | A charge attempt keeps the customers, the invoice topic, every invoice and the earlier audit rows and provider calls. Any new audit row is a legal transition out of the expected status. Any new provider call is for an invoice in that status. |
| Engine.PendingStep | pleo-antaeus-core/src/main/kotlin/io/pleo/antaeus/core/services/BillingService.kt:64-78 | One primary-consumer message, with no contract of its own. `Engine.PendingStepOutcome`, `Engine.PendingStepPaid` and `Engine.PendingStepFrame` specify it. |
| Engine.ProcessPending | pleo-antaeus-core/src/main/kotlin/io/pleo/antaeus/core/services/BillingService.kt:61-80 | The messages of one poll, in order, with no contract of its own. `Engine.ProcessPendingFrame` specifies it. |
| Engine.PendingStepFrame | pleo-antaeus-core/src/main/kotlin/io/pleo/antaeus/core/services/BillingService.kt:63-80 | Each primary-consumer message keeps that frame for PENDING and adds at most one audit row, one provider call and one retry record. |
| Engine.ProcessPendingFrame | pleo-antaeus-core/src/main/kotlin/io/pleo/antaeus/core/services/BillingService.kt:61-80 | A whole primary-consumer batch keeps that frame, only extends the retry topic, and adds at most one provider call and one retry record per message. |
| Engine.PendingStepOutcome | pleo-antaeus-core/src/main/kotlin/io/pleo/antaeus/core/services/BillingService.kt:68-70 | For a stored invoice the message ends PAID with no retry record, or FAILED with exactly one retry record for the invoice as fetched, keyed by its currency. |
| Engine.PendingStepPaid | pleo-antaeus-core/src/main/kotlin/io/pleo/antaeus/core/services/BillingService.kt:68-69 | A successful first charge leaves exactly one new audit row (PENDING to PAID), the invoice PAID, and nothing on the retry topic. |
| Engine.ProcessFailedRetry | pleo-antaeus-core/src/main/kotlin/io/pleo/antaeus/core/services/BillingService.kt:199-205 | The support notification stub, returning its fixed notice. `Engine.RetryStepFailure` states the notice. |
| Engine.RetryStep | pleo-antaeus-core/src/main/kotlin/io/pleo/antaeus/core/services/BillingService.kt:188-195 | One retry-consumer message, with no contract of its own. `Engine.RetryStepOutcome`, `Engine.RetryStepFailure` and `Engine.RetryStepFrame` specify it. |
| Engine.RetryBatch | pleo-antaeus-core/src/main/kotlin/io/pleo/antaeus/core/services/BillingService.kt:185-197 | The messages of one retry poll, stopping at the first unparsable id, with no contract of its own. `Engine.RetryBatchFrame`, `Engine.RetryBatchStops` and `Engine.RetryBatchCompleted` specify it. |
| Engine.RetryStepOutcome | pleo-antaeus-core/src/main/kotlin/io/pleo/antaeus/core/services/BillingService.kt:192-195 | For a stored invoice, a successful retry charge leaves it PAID and notifies nobody. Every other result notifies support about that id and leaves the invoice rows as they were. This covers a decline, a provider exception, a stale status and a missing customer. The retry always continues. |
| Engine.RetryStepFrame | pleo-antaeus-core/src/main/kotlin/io/pleo/antaeus/core/services/BillingService.kt:187-196 | A retry message keeps the frame for FAILED, publishes nothing, sets no status but PAID, notifies at most once, and continues the batch exactly when its id parses. |
| Engine.RetryBatchFrame | pleo-antaeus-core/src/main/kotlin/io/pleo/antaeus/core/services/BillingService.kt:185-197 | A retry batch keeps that frame, publishes nothing, sets no status but PAID, and notifies at most once per message. |
| Engine.RetryBatchCompleted | pleo-antaeus-core/src/main/kotlin/io/pleo/antaeus/core/services/BillingService.kt:189-192 | A retry batch runs to its end exactly when every message's field 0 parses as an `Int`. |
| Engine.RetryBatchStops | pleo-antaeus-core/src/main/kotlin/io/pleo/antaeus/core/services/BillingService.kt:187-192 | Once a message's id fails to parse, no later message of the batch has any effect. |
| Engine.RetryStepFailure | pleo-antaeus-core/src/main/kotlin/io/pleo/antaeus/core/services/BillingService.kt:192-205 | A second decline appends the audit row FAILED to RETRY_FAILED and notifies support with `Email sent to Pleo Support & Consumer`. It publishes nothing and leaves the invoice rows as they were. |
| Engine.Records | pleo-antaeus-core/src/main/kotlin/io/pleo/antaeus/core/services/BillingService.kt:33-40 | One record per invoice, in order, each keyed by the invoice's currency and carrying its encoding. |
| Engine.DispatchedByCurrency | pleo-antaeus-core/src/main/kotlin/io/pleo/antaeus/core/services/BillingService.kt:28-43 | Dispatching currency by currency publishes the records of the PENDING rows in the order of the per-currency queries. |
| Engine.Dispatched | pleo-antaeus-core/src/main/kotlin/io/pleo/antaeus/core/services/BillingService.kt:28-40 | The records published for a list of currencies, one per-currency query after another, with no contract of its own. `Engine.DispatchedByCurrency` specifies it. |
| Engine.Dispatch | pleo-antaeus-core/src/main/kotlin/io/pleo/antaeus/core/services/BillingService.kt:25-46 | `processInvoices` on the whole world: only the invoice topic grows. `Engine.DispatchOnePerPending` specifies what it adds. |
| Engine.DispatchCount | pleo-antaeus-core/src/main/kotlin/io/pleo/antaeus/core/services/BillingService.kt:25-46 | The dispatcher publishes exactly as many records as there are PENDING invoices. |
| Engine.DispatchCovers | pleo-antaeus-core/src/main/kotlin/io/pleo/antaeus/core/services/BillingService.kt:25-46 | Every PENDING invoice has its record published. |
| Engine.DispatchSound | pleo-antaeus-core/src/main/kotlin/io/pleo/antaeus/core/services/BillingService.kt:32-36 | Every published record comes from a PENDING invoice, is keyed by its currency, and decodes to its id. |
| Engine.DispatchOnePerPending | pleo-antaeus-core/src/main/kotlin/io/pleo/antaeus/core/services/BillingService.kt:25-46 | The three dispatcher properties together: one record per PENDING invoice, no more and no fewer. |
| Engine.DispatchThreeCurrencies | pleo-antaeus-core/src/test/kotlin/io/pleo/antaeus/core/services/BillingServiceTest.kt:79-88 | Three PENDING invoices in EUR, GBP and SEK give exactly three records over a real table. The test's mock returns all three for every currency, which gives its count of 15. |
| Billing.BillingService.ChargeInvoice | pleo-antaeus-core/src/main/kotlin/io/pleo/antaeus/core/services/BillingService.kt:100-138 | The new services and the result are exactly what `Engine.Charge` computes. |
| Billing.BillingService.CreateAuditEntry | pleo-antaeus-core/src/main/kotlin/io/pleo/antaeus/core/services/BillingService.kt:140-158 | Appends one audit row from the expected status to `AuditTarget`. Invoices are untouched. |
| Billing.BillingService.UpdateStatus | pleo-antaeus-core/src/main/kotlin/io/pleo/antaeus/core/services/BillingService.kt:89-98 | Sets the status of invoice id and changes nothing else. |
| Billing.BillingService.ProcessRetry | pleo-antaeus-core/src/main/kotlin/io/pleo/antaeus/core/services/BillingService.kt:82-87 | Sets the invoice FAILED and appends the record of the invoice as passed to the retry topic, keyed by its currency. The invoice topic and audit table stay. |
| Billing.BillingService.ProcessPendingMessage | pleo-antaeus-core/src/main/kotlin/io/pleo/antaeus/core/services/BillingService.kt:64-78 | One message leaves the services exactly as `Engine.PendingStep` says. |
| Billing.BillingService.ProcessPendingInvoice | pleo-antaeus-core/src/main/kotlin/io/pleo/antaeus/core/services/BillingService.kt:61-80 | A polled batch, in order, leaves the services exactly as `Engine.ProcessPending` says. |
| Billing.BillingService.RetryMessage | pleo-antaeus-core/src/main/kotlin/io/pleo/antaeus/core/services/BillingService.kt:188-195 | One retry message: new state, notified ids and continuation are exactly `Engine.RetryStep`'s. By `Engine.RetryStepOutcome`, a success sets PAID and every failure notifies support. |
| Billing.BillingService.RetryInvoices | pleo-antaeus-core/src/main/kotlin/io/pleo/antaeus/core/services/BillingService.kt:185-197 | A polled retry batch: new state, notified ids and whether it ran to its end are exactly `Engine.RetryBatch`'s. |
| Billing.BillingService.SendInvoices | pleo-antaeus-core/src/main/kotlin/io/pleo/antaeus/core/services/BillingService.kt:33-40 | Appends `Records(output)` to the invoice topic and leaves the retry topic alone. |
| Billing.BillingService.ProcessInvoices | pleo-antaeus-core/src/main/kotlin/io/pleo/antaeus/core/services/BillingService.kt:25-46 | The new services are `Engine.Dispatch` of the old ones: the dispatched records are appended to the invoice topic and nothing else changes. |
| Billing.BillingService.AddAll | pleo-antaeus-core/src/main/kotlin/io/pleo/antaeus/core/services/BillingService.kt:164-167 | Adding each element of `output` in turn gives the list followed by `output`. |
| Billing.BillingService.GetPaidInvoices | pleo-antaeus-core/src/main/kotlin/io/pleo/antaeus/core/services/BillingService.kt:160-170 | The per-currency PAID queries concatenated in enumeration order. By `Store.AllCurrencies` these are exactly the PAID invoices. |
| Billing.BillingService.GetFailedInvoices | pleo-antaeus-core/src/main/kotlin/io/pleo/antaeus/core/services/BillingService.kt:172-183 | The per-currency FAILED queries concatenated in enumeration order. By `Store.AllCurrencies` these are exactly the FAILED invoices. |
| Billing.BillingService.GetAuditInfo | pleo-antaeus-core/src/main/kotlin/io/pleo/antaeus/core/services/BillingService.kt:208-210 | The audit log as stored. |
| Findings.StaleRedeliveryRecharges | pleo-antaeus-core/src/main/kotlin/io/pleo/antaeus/core/services/BillingService.kt:68-70 | As written, a PENDING message for a stored PAID invoice demotes it to FAILED and publishes it for retry. The retry consumer then asks the provider to charge it again. |
| Findings.StaleRedeliveryExample | pleo-antaeus-core/src/main/kotlin/io/pleo/antaeus/core/services/BillingService.kt:105 | Invoice 1 is PAID and its message `1\|1\|PENDING\|100\|EUR` is delivered again. After both consumers the provider has been asked to charge it once more. |
| Findings.MismatchRetriedAsWritten | pleo-antaeus-core/src/main/kotlin/io/pleo/antaeus/core/services/BillingService.kt:72-75 | As written, a currency mismatch leaves the invoice FAILED with one retry record and no audit row. |
| Findings.PendingStepCorrected | pleo-antaeus-core/src/main/kotlin/io/pleo/antaeus/core/services/BillingService.kt:68-75 | The primary-consumer step as intended: only a charge the provider was asked about is retried. It has no contract of its own; `Findings.CorrectedAgrees`, `Findings.CorrectedMismatchIgnored` and `Findings.CorrectedStepSparesPaid` specify it. |
| Findings.ProcessPendingCorrected | pleo-antaeus-core/src/main/kotlin/io/pleo/antaeus/core/services/BillingService.kt:61-80 | The corrected step over one poll, in order, with no contract of its own. `Findings.CorrectedBatchSparesPaid` specifies it. |
| Findings.CorrectedAgrees | pleo-antaeus-core/src/main/kotlin/io/pleo/antaeus/core/services/BillingService.kt:68-70 | Whenever the provider was asked, the corrected step does what the code does. |
| Findings.CorrectedMismatchIgnored | pleo-antaeus-core/src/main/kotlin/io/pleo/antaeus/core/services/BillingService.kt:72-75 | Corrected: a currency mismatch is neither charged, retried nor recorded. |
| Findings.ChargeSparesPaid | pleo-antaeus-core/src/main/kotlin/io/pleo/antaeus/core/services/BillingService.kt:105-108 | A charge attempt expecting PENDING or FAILED never asks the provider about a PAID invoice. |
| Findings.CorrectedStepSparesPaid | pleo-antaeus-core/src/main/kotlin/io/pleo/antaeus/core/services/BillingService.kt:61-80 | Corrected: one primary-consumer step leaves a PAID invoice PAID and never charges it. |
| Findings.RetryStepSparesPaid | pleo-antaeus-core/src/main/kotlin/io/pleo/antaeus/core/services/BillingService.kt:188-195 | One retry step leaves a PAID invoice PAID and never charges it. |
| Findings.CorrectedBatchSparesPaid | pleo-antaeus-core/src/main/kotlin/io/pleo/antaeus/core/services/BillingService.kt:61-80 | Corrected: a whole primary-consumer batch leaves a PAID invoice PAID and never charges it. |
| Findings.RetryBatchSparesPaid | pleo-antaeus-core/src/main/kotlin/io/pleo/antaeus/core/services/BillingService.kt:185-197 | A whole retry batch leaves a PAID invoice PAID and never charges it. |
| Findings.RunPolls | pleo-antaeus-core/src/main/kotlin/io/pleo/antaeus/core/services/BillingService.kt:61-80 | A sequence of polls, each run by the corrected primary consumer or by the retry consumer, with no contract of its own. `Findings.PaidIsFinal` specifies it. |
| Findings.PaidIsFinal | pleo-antaeus-core/src/main/kotlin/io/pleo/antaeus/core/services/BillingService.kt:105 | With the corrected primary consumer, PAID is final. For any sequence of polls, each handed to either consumer, a PAID invoice stays PAID and is never charged again. |

## Findings

| source | as written | input that shows it | evidently intended | confidence | as-written member | corrected member |
|---|---|---|---|---|---|---|
| pleo-antaeus-core/src/main/kotlin/io/pleo/antaeus/core/services/BillingService.kt:68-70 | Every `false` from `chargeInvoice` goes to `processRetry`, including the stale-status skip. | Invoice 1 is stored PAID (customer 1, EUR) and its message `1\|1\|PENDING\|100\|EUR` is delivered a second time. The primary consumer sets it FAILED and publishes a retry. The retry consumer then charges it again. | The check at line 105 is there to avoid a double charge: a skip should leave a PAID invoice alone. | not executed | Findings.StaleRedeliveryRecharges, Findings.StaleRedeliveryExample | Findings.PendingStepCorrected, proved by Findings.PaidIsFinal |
| pleo-antaeus-core/src/main/kotlin/io/pleo/antaeus/core/services/BillingService.kt:72-75 | The consumer's `CurrencyMismatchException` handler is unreachable. The generic handler at lines 128-130 catches the exception first, so the mismatch is marked FAILED and retried. | Invoice 2 in USD whose customer pays in EUR, with message `2\|2\|PENDING\|5\|USD`. | Per the comment at lines 74-75, a mismatch is not retried. | not executed | Findings.MismatchRetriedAsWritten | Findings.PendingStepCorrected, proved by Findings.CorrectedMismatchIgnored |

`Findings.PendingStepCorrected` retries only when the provider was actually asked (`Engine.ChargeAllowed`). `Findings.CorrectedAgrees` shows it matches the code in every such case. `BillingService` itself models the code as written.

## Left out

- Locking: the read-write lock in `createMsgTxtFromInvoice`, `updateStatus`, `chargeInvoice` and `createAuditEntry` only serialises threads. The model is sequential.
- Threads: the thread pool in `processInvoices`. The dispatcher is a sequential loop over the currencies in enumeration order. Interleavings between currencies are not modelled.
- Billing.BillingService.ProcessInvoices: `processInvoices` calls `executor.shutdown()` without waiting for the workers (line 44), so it can return before any record is sent. Its ensures describe the state once every worker has finished.
- Kafka client I/O: producer and consumer construction, subscription, and `poll`. A consumer is handed the batch it polled as a sequence of message texts. A topic is the sequence of records sent to it.
- Publish failures: the catch around `sendMessage` in `processInvoices` (lines 34-39) is not modelled, because the outbox append cannot fail.
- Scheduling: `SchedulerService.kt`, which triggers the pipeline on wall-clock time. It is not part of this model.
- Database plumbing: the SQL transactions and row mapping of `AntaeusDal.kt`. Only the query filters and the update and insert effects are modelled.
- Audit timestamp: `DateTime.now()` is left out of the audit row.
- Database exceptions: the handlers in `updateStatus` and `createAuditEntry` catch exceptions the in-memory store never raises.
- Amounts: the `BigDecimal` amount is its printed decimal text. No arithmetic is done on it.
- Logging: every logging call is left out.
- Payment provider: it is an oracle indexed by the number of requests so far. The reason behind each answer is outside the model.
- Customer lookup: `CustomerService` is modelled only as a read-only map from id to customer, and the model classes only as plain datatypes. The customer data access and the exception classes are not modelled. A missing customer stands for the exception `fetch` raises.
- Kotlin `toInt`: it accepts non-ASCII Unicode digits. `Wire.ParseInt` accepts ASCII digits only, which is every text the encoder produces.
- Engine.ProcessFailedRetry: the notification stub only returns its fixed notice. Sending e-mail is a to-do in the source.
