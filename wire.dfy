/**
 * The message format carried on the invoice and retry topics,
 * `id|customerId|status|value|currency`, and the decoding the consumers
 * apply to it (split on `|`, parse field 0 as an `Int`).
 */
module Wire {
  import opened Domain

  predicate IsDigit(c: char)
  {
    '0' <= c <= '9'
  }

  function DigitChar(d: nat): (c: char)
    requires d < 10
    ensures IsDigit(c)
  {
    (48 + d) as char
  }

  function DigitValue(c: char): (d: nat)
    requires IsDigit(c)
    ensures d < 10
  {
    c as int - 48
  }

  predicate AllDigits(s: string)
  {
    forall i :: 0 <= i < |s| ==> IsDigit(s[i])
  }

  /** Decimal digits of a natural number, most significant first, no leading zeros. */
  function NatToString(n: nat): (s: string)
    ensures |s| > 0 && AllDigits(s)
    ensures n < 10 <==> |s| == 1
    decreases n
  {
    if n < 10 then [DigitChar(n)] else NatToString(n / 10) + [DigitChar(n % 10)]
  }

  /** Kotlin's `Int.toString()`: a `-` in front of the digits of a negative number. */
  function IntToString(n: int): (s: string)
    ensures |s| > 0 && '|' !in s
    ensures s[0] == '-' <==> n < 0
  {
    if n < 0 then "-" + NatToString(-n) else NatToString(n)
  }

  /** The value of a string of decimal digits, read most significant first. */
  function DigitsValue(s: string): nat
    requires AllDigits(s)
  {
    if |s| == 0 then 0 else DigitsValue(s[..|s| - 1]) * 10 + DigitValue(s[|s| - 1])
  }

  /**
   * Kotlin's `String.toInt()` (Java's `Integer.parseInt`) on ASCII text:
   * an optional `-` or `+`, at least one digit, and a value that fits an
   * `Int`; any other string raises `NumberFormatException`, here `None`.
   */
  function ParseInt(s: string): (r: Option<Int32>)
    ensures |s| == 0 ==> r.None?
    ensures r.Some? && s[0] != '-' && s[0] != '+' ==> AllDigits(s) && r.value == DigitsValue(s)
    ensures r.Some? && (s[0] == '-' || s[0] == '+') ==>
              |s| > 1 && AllDigits(s[1..])
              && r.value == if s[0] == '-' then -(DigitsValue(s[1..]) as int) else DigitsValue(s[1..])
    ensures |s| > 0 && AllDigits(s) && DigitsValue(s) < 0x8000_0000 ==> r == Some(DigitsValue(s))
    ensures |s| > 1 && (s[0] == '-' || s[0] == '+') && AllDigits(s[1..]) ==>
              var v: int := if s[0] == '-' then -(DigitsValue(s[1..]) as int) else DigitsValue(s[1..]);
              (r.Some? <==> -0x8000_0000 <= v < 0x8000_0000)
  {
    if |s| == 0 then None
    else if s[0] == '-' || s[0] == '+' then
      var digits := s[1..];
      if |digits| == 0 || !AllDigits(digits) then None
      else
        var v: int := if s[0] == '-' then -(DigitsValue(digits) as int) else DigitsValue(digits);
        if -0x8000_0000 <= v < 0x8000_0000 then Some(v) else None
    else if !AllDigits(s) then None
    else
      var v := DigitsValue(s);
      if v < 0x8000_0000 then Some(v) else None
  }

  lemma {:induction false} DigitsValueOfNatToString(n: nat)
    ensures DigitsValue(NatToString(n)) == n
    decreases n
  {
    var s := NatToString(n);
    if n >= 10 {
      DigitsValueOfNatToString(n / 10);
      assert s[..|s| - 1] == NatToString(n / 10);
    }
  }

  lemma ParseNatToString(n: nat)
    requires n < 0x8000_0000
    ensures ParseInt(NatToString(n)) == Some(n)
  {
    DigitsValueOfNatToString(n);
    var s := NatToString(n);
    assert IsDigit(s[0]);
  }

  lemma ParseNegatedNatToString(n: nat)
    requires 0 < n <= 0x8000_0000
    ensures ParseInt("-" + NatToString(n)) == Some(-(n as int))
  {
    DigitsValueOfNatToString(n);
    var s := "-" + NatToString(n);
    assert s[1..] == NatToString(n);
  }

  /** Parsing the text of an `Int` gives the `Int` back. */
  lemma ParseIntToString(x: Int32)
    ensures ParseInt(IntToString(x)) == Some(x)
  {
    if x < 0 {
      ParseNegatedNatToString(-(x as int));
    } else {
      ParseNatToString(x);
    }
  }

  /** Joins fields with `|` between consecutive ones. */
  function Join(fields: seq<string>): string
    requires |fields| > 0
  {
    if |fields| == 1 then fields[0] else fields[0] + "|" + Join(fields[1..])
  }

  /**
   * Kotlin's `split("|")`: the text between consecutive `|`, keeping empty
   * fields at either end; it always yields at least one field.
   */
  function Split(s: string): (fields: seq<string>)
    ensures |fields| > 0
    ensures forall k :: 0 <= k < |fields| ==> '|' !in fields[k]
    ensures Join(fields) == s
    decreases |s|
  {
    if |s| == 0 then [""]
    else
      var rest := Split(s[1..]);
      if s[0] == '|' then
        [""] + rest
      else
        var fields := [[s[0]] + rest[0]] + rest[1..];
        assert fields[1..] == rest[1..];
        assert s == [s[0]] + s[1..];
        fields
  }

  lemma {:induction false} SplitNoBar(a: string)
    requires '|' !in a
    ensures Split(a) == [a]
    decreases |a|
  {
    if |a| > 0 {
      SplitNoBar(a[1..]);
      assert [a[0]] + a[1..] == a;
    }
  }

  lemma {:induction false} SplitFieldThenRest(a: string, b: string)
    requires '|' !in a
    ensures Split(a + "|" + b) == [a] + Split(b)
    decreases |a|
  {
    var s := a + "|" + b;
    if |a| == 0 {
      assert s[1..] == b;
    } else {
      SplitFieldThenRest(a[1..], b);
      assert s[1..] == a[1..] + "|" + b;
      assert [a[0]] + a[1..] == a;
    }
  }

  /** Splitting undoes joining, as long as no field holds a `|`. */
  lemma {:induction false} SplitJoin(fields: seq<string>)
    requires |fields| > 0
    requires forall k :: 0 <= k < |fields| ==> '|' !in fields[k]
    ensures Split(Join(fields)) == fields
    decreases |fields|
  {
    if |fields| == 1 {
      SplitNoBar(fields[0]);
    } else {
      SplitJoin(fields[1..]);
      SplitFieldThenRest(fields[0], Join(fields[1..]));
    }
  }

  /** `createMsgTxtFromInvoice`: the five fields of an invoice, `|`-separated. */
  function Encode(inv: Invoice): string
  {
    IntToString(inv.id) + "|" + IntToString(inv.customerId) + "|" + StatusName(inv.status)
      + "|" + inv.amount.value + "|" + CurrencyName(inv.amount.currency)
  }

  /** The five fields in wire order. */
  function Fields(inv: Invoice): seq<string>
  {
    [IntToString(inv.id), IntToString(inv.customerId), StatusName(inv.status),
     inv.amount.value, CurrencyName(inv.amount.currency)]
  }

  lemma JoinFields(inv: Invoice)
    ensures Join(Fields(inv)) == Encode(inv)
  {
    var f := Fields(inv);
    assert Join(f[4..]) == f[4];
    assert Join(f[3..]) == f[3] + "|" + f[4];
    assert Join(f[2..]) == f[2] + "|" + Join(f[3..]);
    assert Join(f[1..]) == f[1] + "|" + Join(f[2..]);
  }

  lemma FieldsHaveNoBar(inv: Invoice)
    ensures forall k :: 0 <= k < |Fields(inv)| ==> '|' !in Fields(inv)[k]
  {
    var v := inv.amount.value;
    assert forall i :: 0 <= i < |v| ==> v[i] != '|' by {
      assert IsDecimalText(v);
    }
    assert '|' !in StatusName(inv.status) by {
      match inv.status
      case Pending =>
      case Paid =>
      case Failed =>
      case RetryFailed =>
    }
    assert '|' !in CurrencyName(inv.amount.currency) by {
      match inv.amount.currency
      case EUR =>
      case USD =>
      case DKK =>
      case SEK =>
      case GBP =>
    }
  }

  /** An encoded invoice splits into exactly its five fields, in order. */
  lemma EncodeFields(inv: Invoice)
    ensures Split(Encode(inv)) == Fields(inv)
  {
    JoinFields(inv);
    FieldsHaveNoBar(inv);
    SplitJoin(Fields(inv));
  }

  /** What each consumer reads from a message: `msg[0].toInt()`. */
  function DecodeId(msg: string): Option<Int32>
  {
    ParseInt(Split(msg)[0])
  }

  /** Decoding field 0 of an encoded invoice gives back its id. */
  lemma DecodeEncode(inv: Invoice)
    ensures DecodeId(Encode(inv)) == Some(inv.id)
  {
    EncodeFields(inv);
    ParseIntToString(inv.id);
  }

  /** The encoding of the invoice the unit test builds. */
  lemma EncodeExample()
    ensures Encode(Invoice(23, 23, Money("1000", EUR), Pending)) == "23|23|PENDING|1000|EUR"
  {
    assert NatToString(23) == "23" by {
      assert NatToString(2) == "2";
    }
  }
}
