/**
 * The invoice and audit store behind `InvoiceService`: the invoice table as
 * a sequence of rows in table order, the audit table as an append-only
 * sequence, and the queries of the data access layer as functions over them.
 * The customers the charge engine reads are a read-only map.
 */
module Store {
  import opened Domain

  /** `InvoiceTable.id` is the primary key: no two rows share an id. */
  ghost predicate DistinctIds(rows: seq<Invoice>)
  {
    forall i, j :: 0 <= i < j < |rows| ==> rows[i].id != rows[j].id
  }

  /** `fetchInvoice`: the first row whose id matches (`firstOrNull`). */
  function Find(rows: seq<Invoice>, id: int): (r: Option<Invoice>)
    ensures r.None? <==> forall i :: 0 <= i < |rows| ==> rows[i].id != id
    ensures r.Some? ==> exists i :: 0 <= i < |rows| && rows[i] == r.value && r.value.id == id
                                    && forall j :: 0 <= j < i ==> rows[j].id != id
  {
    if |rows| == 0 then None
    else if rows[0].id == id then Some(rows[0])
    else
      var r := Find(rows[1..], id);
      assert r.Some? ==> exists i :: 0 <= i < |rows[1..]| && rows[1..][i] == r.value
                                     && forall j :: 0 <= j < i ==> rows[1..][j].id != id;
      assert forall i :: 0 < i < |rows| ==> rows[i] == rows[1..][i - 1];
      r
  }

  /** With distinct ids, every stored row is what a lookup of its id returns. */
  lemma FindStored(rows: seq<Invoice>, x: Invoice)
    requires DistinctIds(rows)
    ensures Find(rows, x.id) == Some(x) <==> x in rows
  {
    var r := Find(rows, x.id);
    if x in rows {
      var k :| 0 <= k < |rows| && rows[k] == x;
      var i :| 0 <= i < |rows| && rows[i] == r.value && r.value.id == x.id
               && forall j :: 0 <= j < i ==> rows[j].id != x.id;
      assert i == k;
    }
  }

  predicate Matches(inv: Invoice, c: Currency, s: InvoiceStatus)
  {
    inv.amount.currency == c && inv.status == s
  }

  /**
   * The query `currency = c and status = s`: every matching row as often as
   * the table holds it, and nothing else.
   */
  function Select(rows: seq<Invoice>, c: Currency, s: InvoiceStatus): (r: seq<Invoice>)
    ensures forall x :: multiset(r)[x] == if Matches(x, c, s) then multiset(rows)[x] else 0
    ensures forall x :: x in r <==> x in rows && Matches(x, c, s)
  {
    if |rows| == 0 then []
    else
      var r := (if Matches(rows[0], c, s) then [rows[0]] else []) + Select(rows[1..], c, s);
      assert rows == [rows[0]] + rows[1..];
      r
  }

  /** The rows with status s, whatever their currency. */
  function Having(rows: seq<Invoice>, s: InvoiceStatus): (r: seq<Invoice>)
    ensures forall x :: multiset(r)[x] == if x.status == s then multiset(rows)[x] else 0
  {
    if |rows| == 0 then []
    else
      var r := (if rows[0].status == s then [rows[0]] else []) + Having(rows[1..], s);
      assert rows == [rows[0]] + rows[1..];
      r
  }

  /** One query per currency of cs, in the order of cs, results concatenated. */
  function ByCurrency(rows: seq<Invoice>, cs: seq<Currency>, s: InvoiceStatus): seq<Invoice>
  {
    if |cs| == 0 then []
    else ByCurrency(rows, cs[..|cs| - 1], s) + Select(rows, cs[|cs| - 1], s)
  }

  /** One more currency queried appends that currency's rows. */
  lemma ByCurrencyNext(rows: seq<Invoice>, cs: seq<Currency>, i: int, s: InvoiceStatus)
    requires 0 <= i < |cs|
    ensures ByCurrency(rows, cs[..i + 1], s) == ByCurrency(rows, cs[..i], s) + Select(rows, cs[i], s)
  {
    assert cs[..i + 1][..i] == cs[..i];
  }

  lemma {:induction false} ByCurrencyCount(rows: seq<Invoice>, cs: seq<Currency>, s: InvoiceStatus, x: Invoice)
    requires forall i, j :: 0 <= i < j < |cs| ==> cs[i] != cs[j]
    ensures multiset(ByCurrency(rows, cs, s))[x]
            == if x.status == s && x.amount.currency in cs then multiset(rows)[x] else 0
    decreases |cs|
  {
    if |cs| > 0 {
      var init, c := cs[..|cs| - 1], cs[|cs| - 1];
      ByCurrencyCount(rows, init, s, x);
      assert c !in init;
      assert x.amount.currency in cs <==> x.amount.currency in init || x.amount.currency == c;
    }
  }

  lemma CurrenciesComplete(c: Currency)
    ensures c in Currencies
  {
    match c
    case EUR => assert Currencies[0] == EUR;
    case USD => assert Currencies[1] == USD;
    case DKK => assert Currencies[2] == DKK;
    case SEK => assert Currencies[3] == SEK;
    case GBP => assert Currencies[4] == GBP;
  }

  lemma CurrenciesDistinct()
    ensures forall i, j :: 0 <= i < j < |Currencies| ==> Currencies[i] != Currencies[j]
  {
  }

  /**
   * Querying every currency in enumeration order yields each row with
   * status s exactly as often as the table holds it.
   */
  lemma AllCurrencies(rows: seq<Invoice>, s: InvoiceStatus)
    ensures multiset(ByCurrency(rows, Currencies, s)) == multiset(Having(rows, s))
    ensures |ByCurrency(rows, Currencies, s)| == |Having(rows, s)|
    ensures forall x :: x in ByCurrency(rows, Currencies, s) <==> x in rows && x.status == s
  {
    var b := ByCurrency(rows, Currencies, s);
    AllCurrenciesCount(rows, s);
    assert |multiset(b)| == |multiset(Having(rows, s))|;
    forall x
      ensures x in b <==> x in rows && x.status == s
    {
      assert x in b <==> multiset(b)[x] > 0;
      assert x in rows <==> multiset(rows)[x] > 0;
    }
  }

  lemma AllCurrenciesCount(rows: seq<Invoice>, s: InvoiceStatus)
    ensures multiset(ByCurrency(rows, Currencies, s)) == multiset(Having(rows, s))
  {
    CurrenciesDistinct();
    forall x
      ensures multiset(ByCurrency(rows, Currencies, s))[x] == multiset(Having(rows, s))[x]
    {
      ByCurrencyCount(rows, Currencies, s, x);
      CurrenciesComplete(x.amount.currency);
    }
  }

  /** `updateInvoice`: every row with that id gets the new status; nothing else changes. */
  function WithStatus(rows: seq<Invoice>, id: int, s: InvoiceStatus): (r: seq<Invoice>)
    ensures |r| == |rows|
    ensures forall i :: 0 <= i < |rows| ==>
              r[i] == if rows[i].id == id then rows[i].(status := s) else rows[i]
  {
    if |rows| == 0 then []
    else [if rows[0].id == id then rows[0].(status := s) else rows[0]] + WithStatus(rows[1..], id, s)
  }

  /** Updating a status is seen by the next lookup of that id and by no other. */
  lemma {:induction false} FindWithStatus(rows: seq<Invoice>, id: int, s: InvoiceStatus, k: int)
    ensures Find(WithStatus(rows, id, s), k)
            == if k == id && Find(rows, k).Some? then Some(Find(rows, k).value.(status := s)) else Find(rows, k)
    decreases |rows|
  {
    if |rows| > 0 {
      FindWithStatus(rows[1..], id, s, k);
      assert WithStatus(rows, id, s)[1..] == WithStatus(rows[1..], id, s);
    }
  }

  /** An update of an id that is not stored leaves the table as it was. */
  lemma WithStatusAbsent(rows: seq<Invoice>, id: int, s: InvoiceStatus)
    requires Find(rows, id).None?
    ensures WithStatus(rows, id, s) == rows
  {
  }

  /** Rows that agree in everything but their status, position by position. */
  ghost predicate SameButStatus(before: seq<Invoice>, after: seq<Invoice>)
  {
    |before| == |after| &&
    forall i :: 0 <= i < |before| ==> after[i] == before[i].(status := after[i].status)
  }

  /** `InvoiceService` over `AntaeusDal`: the invoice table and the audit table. */
  class InvoiceService {
    var invoices: seq<Invoice>
    var audits: seq<Audit>

    ghost predicate Valid()
      reads this
    {
      DistinctIds(invoices)
    }

    constructor (invoices: seq<Invoice>)
      requires DistinctIds(invoices)
      ensures this.invoices == invoices && audits == []
      ensures Valid()
    {
      this.invoices := invoices;
      audits := [];
    }

    /** `fetchAll`: every stored invoice, each one what `fetch` returns for its id. */
    function FetchAll(): (r: seq<Invoice>)
      requires Valid()
      reads this
      ensures |r| == |invoices|
      ensures forall x :: x in r <==> Fetch(x.id) == Some(x)
    {
      forall x ensures x in invoices <==> Fetch(x.id) == Some(x) {
        FindStored(invoices, x);
      }
      invoices
    }

    /** `fetch`: the stored invoice with that id, or `InvoiceNotFoundException`. */
    function Fetch(id: Int32): (r: Option<Invoice>)
      reads this
      ensures r.Some? ==> r.value in invoices && r.value.id == id
      ensures r.None? <==> forall x :: x in invoices ==> x.id != id
    {
      Find(invoices, id)
    }

    function FetchPendingInvoices(c: Currency): (r: seq<Invoice>)
      reads this
      ensures forall x :: x in r <==> x in invoices && x.amount.currency == c && x.status == Pending
      ensures forall x :: multiset(r)[x] == if Matches(x, c, Pending) then multiset(invoices)[x] else 0
    {
      Select(invoices, c, Pending)
    }

    function FetchPaidInvoices(c: Currency): (r: seq<Invoice>)
      reads this
      ensures forall x :: x in r <==> x in invoices && x.amount.currency == c && x.status == Paid
      ensures forall x :: multiset(r)[x] == if Matches(x, c, Paid) then multiset(invoices)[x] else 0
    {
      Select(invoices, c, Paid)
    }

    function FetchFailedInvoices(c: Currency): (r: seq<Invoice>)
      reads this
      ensures forall x :: x in r <==> x in invoices && x.amount.currency == c && x.status == Failed
      ensures forall x :: multiset(r)[x] == if Matches(x, c, Failed) then multiset(invoices)[x] else 0
    {
      Select(invoices, c, Failed)
    }

    /** `updateInvoice`: sets the status of invoice id; amount, customer and other rows stay. */
    method UpdateInvoice(id: Int32, status: InvoiceStatus)
      modifies this
      ensures invoices == WithStatus(old(invoices), id, status)
      ensures SameButStatus(old(invoices), invoices)
      ensures audits == old(audits)
      ensures old(Valid()) ==> Valid()
    {
      invoices := WithStatus(invoices, id, status);
    }

    /** `createAudit`: appends exactly one audit row; earlier rows and invoices stay. */
    method CreateAudit(id: Int32, fromStatus: InvoiceStatus, toStatus: InvoiceStatus)
      modifies this
      ensures audits == old(audits) + [Audit(id, fromStatus, toStatus)]
      ensures invoices == old(invoices)
      ensures old(Valid()) ==> Valid()
    {
      audits := audits + [Audit(id, fromStatus, toStatus)];
    }

    /** `fetchAuditTable`: the audit log as stored, oldest row first. */
    function FetchAuditTable(): (r: seq<Audit>)
      reads this
      ensures r == audits
    {
      audits
    }
  }

  /** The customer table, which nothing in the billing core writes. */
  class CustomerService {
    const customers: map<Int32, Customer>

    constructor (customers: map<Int32, Customer>)
      ensures this.customers == customers
    {
      this.customers := customers;
    }

    /** `fetch`: the customer with that id, or `CustomerNotFoundException`. */
    function Fetch(id: Int32): (r: Option<Customer>)
      ensures r.None? <==> id !in customers
      ensures r.Some? ==> r.value == customers[id] && r.value in customers.Values
    {
      if id in customers then Some(customers[id]) else None
    }
  }
}
