/** Invoice numbers (frontend/src/utils/invoiceNumber.ts): "INV-" followed
    by the date as YYYYMMDD, a dash and a per-day serial kept as a counter
    in the browser's key-value storage. The current date is a parameter. */
module InvoiceNumber {
  import opened Strings

  /** A calendar date as the browser's clock reports it; month is 1-based. */
  datatype Date = Date(year: nat, month: nat, day: nat)

  predicate ValidDate(d: Date) {
    1 <= d.month <= 12 && 1 <= d.day <= 31
  }

  /** A month or day number left-padded with "0" to two digits. */
  function TwoDigits(n: nat): (r: string)
    requires 1 <= n < 100
    ensures |r| == 2 && (forall i :: 0 <= i < 2 ==> IsDigit(r[i])) && DigitsValue(r) == n
  {
    ZeroPaddedRoundTrip(n, 2);
    assert n < 10 || NatToString(n / 10) == [DigitChar(n / 10)];
    PadStart(NatToString(n), 2, '0')
  }

  /** `${yyyy}${mm}${dd}`: the year is not padded. The key is all digits:
      the year's, then two for the month and two for the day. */
  function TodayKey(d: Date): (r: string)
    requires ValidDate(d)
    ensures var y := NatToString(d.year);
      |r| == |y| + 4 && r[..|y|] == y &&
      (forall i :: 0 <= i < |r| ==> IsDigit(r[i])) &&
      DigitsValue(r[|y|..|y| + 2]) == d.month && DigitsValue(r[|y| + 2..]) == d.day
  {
    var y, m, dd := NatToString(d.year), TwoDigits(d.month), TwoDigits(d.day);
    DigitsJoin(y, m, dd);
    y + m + dd
  }

  /** Three digit strings joined: each stays where it was put, and the
      whole is digits. */
  lemma DigitsJoin(a: string, b: string, c: string)
    requires forall i :: 0 <= i < |a| ==> IsDigit(a[i])
    requires forall i :: 0 <= i < |b| ==> IsDigit(b[i])
    requires forall i :: 0 <= i < |c| ==> IsDigit(c[i])
    ensures var r := a + b + c;
      |r| == |a| + |b| + |c| && r[..|a|] == a && r[|a|..|a| + |b|] == b && r[|a| + |b|..] == c &&
      forall i :: 0 <= i < |r| ==> IsDigit(r[i])
  {
    var r := a + b + c;
    assert forall i :: |a| <= i < |a| + |b| ==> r[i] == b[i - |a|];
    assert forall i :: |a| + |b| <= i < |r| ==> r[i] == c[i - |a| - |b|];
  }

  /** The storage key of the day's counter: a fixed prefix and the date
      key, so days with different keys keep separate counters. */
  function CounterKey(d: Date): (r: string)
    requires ValidDate(d)
    ensures |r| == 16 + |TodayKey(d)| && r[..16] == "invoice-counter-" && r[16..] == TodayKey(d)
  {
    "invoice-counter-" + TodayKey(d)
  }

  /** The serial: the count padded with "0" to at least three digits and
      never cut short. Reading its digits back gives the count. */
  function Serial(count: nat): (r: string)
    ensures |r| >= 3
    ensures count < 100 ==> |r| == 3
    ensures count >= 100 ==> r == NatToString(count)
    ensures (forall i :: 0 <= i < |r| ==> IsDigit(r[i])) && DigitsValue(r) == count
  {
    ZeroPaddedRoundTrip(count, 3);
    ShortDecimal(count);
    PadStart(NatToString(count), 3, '0')
  }

  /** Decimal renderings have two digits or fewer exactly below 100. */
  lemma {:induction false} ShortDecimal(n: nat)
    ensures n < 100 <==> |NatToString(n)| <= 2
  {
    if n >= 10 {
      ShortDecimal(n / 10);
    }
  }

  /** `INV-${todayKey}-${serial}`: the prefix, the date key, a dash and
      the serial, in that order. */
  function FormatInvoiceNumber(d: Date, count: nat): (r: string)
    requires ValidDate(d)
    ensures var k := TodayKey(d);
      |r| == 5 + |k| + |Serial(count)| && r[..4] == "INV-" &&
      r[4..4 + |k|] == k && r[4 + |k|..5 + |k|] == "-" && r[5 + |k|..] == Serial(count)
  {
    var k, n := TodayKey(d), Serial(count);
    Join("INV-", k, "-", n);
    "INV-" + k + "-" + n
  }

  /** The serial of a number is what follows the fixed-length prefix. */
  lemma SerialPart(d: Date, count: nat)
    requires ValidDate(d)
    ensures var p := "INV-" + TodayKey(d) + "-";
      FormatInvoiceNumber(d, count)[|p|..] == Serial(count)
  {
  }

  /** Different counts on the same day give different invoice numbers. */
  lemma InvoiceNumberInjective(d: Date, m: nat, n: nat)
    requires ValidDate(d) && m != n
    ensures FormatInvoiceNumber(d, m) != FormatInvoiceNumber(d, n)
  {
    SerialPart(d, m);
    SerialPart(d, n);
  }

  /** The first invoice of a day has serial "001". */
  lemma FirstSerial()
    ensures Serial(1) == "001"
  {
    assert NatToString(1) == "1";
  }

  /** The thousandth invoice of a day has serial "1000": the padding never
      cuts a longer count short. */
  lemma ThousandthSerial()
    ensures Serial(1000) == "1000"
  {
    assert NatToString(10) == "10";
    assert NatToString(100) == NatToString(10) + "0";
    assert NatToString(1000) == NatToString(100) + "0";
  }

  /** What a stored counter may hold: nothing, or decimal digits. */
  predicate WellFormedCounter(v: string) {
    forall i :: 0 <= i < |v| ==> IsDigit(v[i])
  }

  /** A count written back as its decimal string reads back as the count. */
  lemma CounterReadsBack(n: nat)
    ensures NatToString(n) != "" && WellFormedCounter(NatToString(n))
    ensures DigitsValue(NatToString(n)) == n
  {
    NatToStringRoundTrip(n);
  }

  /** Number(store.getItem(key) || "0"): a missing or empty entry reads
      as 0. */
  function ReadCounter(store: map<string, string>, key: string): (r: nat)
    requires key in store ==> WellFormedCounter(store[key])
    ensures key !in store || store[key] == "" ==> r == 0
  {
    if key in store && store[key] != "" then DigitsValue(store[key]) else 0
  }

  /** Writing a count as its decimal string and reading it back gives the
      count. */
  lemma ReadAfterWrite(store: map<string, string>, key: string, n: nat)
    ensures var s := store[key := NatToString(n)];
      WellFormedCounter(s[key]) && ReadCounter(s, key) == n
  {
    CounterReadsBack(n);
  }

  /** Updating a map at equal keys with equal values gives equal maps. */
  lemma SameUpdate(m: map<string, string>, k: string, k': string, v: string, v': string)
    requires k == k' && v == v'
    ensures m[k := v] == m[k' := v']
  {
  }

  /** localStorage: string keys to string values. */
  class LocalStorage {
    var items: map<string, string>

    constructor (initial: map<string, string>)
      ensures items == initial
    {
      items := initial;
    }

    /** Number(localStorage.getItem(key) || "0"): a missing or empty entry
        reads as 0. */
    function StoredCount(key: string): nat
      reads this
      requires key in items ==> WellFormedCounter(items[key])
    {
      ReadCounter(items, key)
    }

    /** generateInvoiceNumber: reads today's counter, adds one, writes it
        back as a decimal string and formats the number from it. Only
        today's counter entry changes. */
    method GenerateInvoiceNumber(today: Date) returns (invoiceNumber: string)
      requires ValidDate(today)
      requires CounterKey(today) in items ==> WellFormedCounter(items[CounterKey(today)])
      modifies this
      ensures items ==
        old(items)[CounterKey(today) := NatToString(ReadCounter(old(items), CounterKey(today)) + 1)]
      ensures invoiceNumber ==
        FormatInvoiceNumber(today, ReadCounter(old(items), CounterKey(today)) + 1)
    {
      var counterKey := CounterKey(today);
      var currentCount := Increment(counterKey);
      SameUpdate(old(items), counterKey, CounterKey(today), NatToString(currentCount),
        NatToString(ReadCounter(old(items), CounterKey(today)) + 1));
      invoiceNumber := FormatInvoiceNumber(today, currentCount);
    }

    /** The counter steps of generateInvoiceNumber: read the count under
        key, add one and write it back as a decimal string. */
    method Increment(key: string) returns (count: nat)
      requires key in items ==> WellFormedCounter(items[key])
      modifies this
      ensures count == ReadCounter(old(items), key) + 1
      ensures items == old(items)[key := NatToString(count)]
    {
      count := ReadCounter(items, key) + 1;
      items := items[key := NatToString(count)];
    }
  }
}
