/** Column encodings of the `transactions` table, and the round trip an insert
    followed by a scan makes through them. */
module Codec {
  import opened Domain

  // --- status ----------------------------------------------------------------

  function EncodeStatus(s: Status): Option<nat> {
    match s
    case Created => Some(0)
    case Pending => Some(1)
    case Paid => Some(2)
    case Failed => Some(3)
    case Expired => Some(4)
    case Refunded => Some(5)
    case Other(_) => None
  }

  function DecodeStatus(code: nat): Option<Status> {
    if code == 0 then Some(Created)
    else if code == 1 then Some(Pending)
    else if code == 2 then Some(Paid)
    else if code == 3 then Some(Failed)
    else if code == 4 then Some(Expired)
    else if code == 5 then Some(Refunded)
    else None
  }

  // --- payment method --------------------------------------------------------

  const METHODS: seq<string> := [
    "card", "crypto_eth", "wallet", "bank_transfer", "klarna", "afterpay", "affirm", "sepa_debit", "us_bank_account"]

  const METHOD_UNKNOWN: nat := 9

  function MethodIndex(s: string, from: nat): (r: nat)
    requires from <= |METHODS|
    ensures from <= r <= |METHODS|
    ensures r < |METHODS| ==> METHODS[r] == s
    ensures r == |METHODS| ==> forall i | from <= i < |METHODS| :: METHODS[i] != s
    decreases |METHODS| - from
  {
    if from == |METHODS| then from
    else if METHODS[from] == s then from
    else MethodIndex(s, from + 1)
  }

  function EncodeMethod(s: string): nat { MethodIndex(ToLower(s), 0) }

  function DecodeMethod(code: nat): string {
    if code < |METHODS| then METHODS[code] else "unknown"
  }

  /** What a method name becomes once it has been stored and read back. */
  function StoredMethod(s: string): string { DecodeMethod(EncodeMethod(s)) }

  predicate IsCrypto(name: string) { "crypto" <= name }

  /** The crypto bucket of a method survives storage exactly when the name, taken
      without regard to case, is the one crypto method the table knows -- and is
      already spelled in lower case up to the prefix -- or is in neither bucket. */
  lemma BucketSurvives(m: string)
    ensures StoredMethod(m) == ToLower(m) || StoredMethod(m) == "unknown"
    ensures IsCrypto(StoredMethod(m)) <==> ToLower(m) == "crypto_eth"
    ensures IsCrypto(StoredMethod(m)) == IsCrypto(m)
            <==> (if IsCrypto(m) then ToLower(m) == "crypto_eth" else ToLower(m) != "crypto_eth")
  {
    var code := EncodeMethod(m);
    assert METHODS[1] == "crypto_eth" && |METHODS| == METHOD_UNKNOWN;
    if code < |METHODS| {
      assert METHODS[code] == ToLower(m);
      OnlyOneCryptoMethod(code);
    } else {
      assert "unknown"[0] != "crypto"[0];
      assert !IsCrypto("unknown");
    }
  }

  lemma OnlyOneCryptoMethod(code: nat)
    requires code < |METHODS|
    ensures IsCrypto(METHODS[code]) <==> code == 1
    ensures METHODS[code] == "crypto_eth" <==> code == 1
  {
    if code == 1 {
      assert METHODS[1][..6] == "crypto";
    } else if code == 0 {
      assert METHODS[0] == "card";
      assert |METHODS[0]| == 4;
    } else {
      assert METHODS[code][0] != 'c';
      assert "crypto"[0] == 'c' && "crypto_eth"[0] == 'c';
    }
  }

  // --- currency --------------------------------------------------------------

  function Currencies(): seq<(string, nat)> {
    [
    ("USD", 840), ("EUR", 978), ("GBP", 826), ("JPY", 392), ("CNY", 156), ("AUD", 36), ("CAD", 124),
    ("CHF", 756), ("HKD", 344), ("IDR", 360), ("INR", 356), ("KRW", 410), ("MYR", 458), ("NZD", 554),
    ("PHP", 608), ("SGD", 702), ("THB", 764), ("TWD", 901), ("VND", 704)]
  }

  function CurrencyByName(s: string, from: nat): (r: nat)
    requires from <= |Currencies()|
    ensures from <= r <= |Currencies()|
    ensures r < |Currencies()| ==> Currencies()[r].0 == s
    ensures forall i | from <= i < r :: Currencies()[i].0 != s
    decreases |Currencies()| - from
  {
    if from == |Currencies()| || Currencies()[from].0 == s then from else CurrencyByName(s, from + 1)
  }

  function CurrencyByCode(code: nat, from: nat): (r: nat)
    requires from <= |Currencies()|
    ensures from <= r <= |Currencies()|
    ensures r < |Currencies()| ==> Currencies()[r].1 == code
    ensures forall i | from <= i < r :: Currencies()[i].1 != code
    decreases |Currencies()| - from
  {
    if from == |Currencies()| || Currencies()[from].1 == code then from else CurrencyByCode(code, from + 1)
  }

  function EncodeCurrency(s: string): Option<nat> {
    var i := CurrencyByName(ToUpper(s), 0);
    if i < |Currencies()| then Some(Currencies()[i].1) else None
  }

  function DecodeCurrency(code: nat): Option<string> {
    var i := CurrencyByCode(code, 0);
    if i < |Currencies()| then Some(Currencies()[i].0) else None
  }

  lemma CurrencyCodesDistinct(i: nat, j: nat)
    requires i < |Currencies()| && j < |Currencies()| && Currencies()[i].1 == Currencies()[j].1
    ensures i == j
  {
  }

  lemma CurrencyRoundTrip(s: string)
    ensures EncodeCurrency(s).Some? ==> DecodeCurrency(EncodeCurrency(s).value) == Some(ToUpper(s))
  {
    var i := CurrencyByName(ToUpper(s), 0);
    if i < |Currencies()| {
      CurrencyCodesDistinct(i, CurrencyByCode(Currencies()[i].1, 0));
    }
  }

  ghost predicate Injective<K, V>(m: map<K, V>) {
    forall j, k | j in m && k in m && m[j] == m[k] :: j == k
  }

  /** The start-up loop that inverts the currency table, for any table and any
      iteration order. Lookup in the result undoes the table iff it is injective. */
  method InvertTable<K(==), V(==)>(m: map<K, V>) returns (inv: map<V, K>)
    ensures inv.Keys == m.Values
    ensures forall v | v in inv :: inv[v] in m && m[inv[v]] == v
    ensures (forall k | k in m :: inv[m[k]] == k) <==> Injective(m)
  {
    inv := map[];
    var todo := m.Keys;
    while todo != {}
      invariant todo <= m.Keys
      invariant forall v | v in inv :: inv[v] in m && m[inv[v]] == v
      invariant forall k | k in m && k !in todo :: m[k] in inv
      decreases todo
    {
      var k :| k in todo;
      inv := inv[m[k] := k];
      todo := todo - {k};
    }
    assert inv.Keys == m.Values;
    if forall k | k in m :: inv[m[k]] == k {
      forall j, k | j in m && k in m && m[j] == m[k] ensures j == k {
        assert inv[m[j]] == j;
      }
    }
  }

  // --- ids -------------------------------------------------------------------

  const HEX: string := "0123456789abcdef"

  function HexValue(c: char): Option<nat> {
    if '0' <= c <= '9' then Some(c as int - '0' as int)
    else if 'a' <= c <= 'f' then Some(c as int - 'a' as int + 10)
    else if 'A' <= c <= 'F' then Some(c as int - 'A' as int + 10)
    else None
  }

  lemma HexDigit(c: char)
    requires HexValue(c).Some?
    ensures HexValue(c).value < 16 && HEX[HexValue(c).value] == LowerChar(c)
  {
  }

  function DecodeHex(s: string): (r: Option<seq<byte>>)
    requires |s| % 2 == 0
    ensures r.Some? ==> 2 * |r.value| == |s|
  {
    if s == "" then Some([])
    else
      var hi, lo, rest := HexValue(s[0]), HexValue(s[1]), DecodeHex(s[2..]);
      if hi.Some? && lo.Some? && rest.Some? && hi.value < 16 && lo.value < 16
      then Some([hi.value * 16 + lo.value] + rest.value) else None
  }

  function DecodeHex16(s: string): Option<seq<byte>> {
    if |s| != 32 then None else DecodeHex(s)
  }

  predicate PairAt(b: seq<byte>, text: string, j: int) {
    0 <= j < |b| && 2 * j + 1 < |text| && text[2 * j] == HEX[b[j] / 16] && text[2 * j + 1] == HEX[b[j] % 16]
  }

  /** Fill a buffer two digits per byte. Decoding the text gives the bytes back. */
  method HexLower(b: seq<byte>) returns (text: string)
    ensures text == ToLower(text)
    ensures |text| == 2 * |b| && DecodeHex(text) == Some(b)
  {
    var out := new char[2 * |b|];
    for i := 0 to |b|
      invariant forall j | 0 <= j < i :: PairAt(b, out[..], j)
    {
      ghost var before := out[..];
      out[2 * i] := HEX[b[i] / 16];
      out[2 * i + 1] := HEX[b[i] % 16];
      forall j | 0 <= j < i + 1 ensures PairAt(b, out[..], j) {
        if j < i {
          assert PairAt(b, before, j);
        }
      }
    }
    text := out[..];
    HexTextDecodes(b, text);
  }

  lemma {:induction false} HexTextDecodes(b: seq<byte>, text: string)
    requires |text| == 2 * |b|
    requires forall j | 0 <= j < |b| :: PairAt(b, text, j)
    ensures text == ToLower(text) && DecodeHex(text) == Some(b)
  {
    if b == [] {
      assert text == "";
    } else {
      var rest := text[2..];
      forall j | 0 <= j < |b| - 1 ensures PairAt(b[1..], rest, j) {
        assert PairAt(b, text, j + 1);
      }
      HexTextDecodes(b[1..], rest);
      assert PairAt(b, text, 0);
      HexPairDecodes(b[0], text);
      assert b == [b[0]] + b[1..];
      assert text == text[..2] + rest;
      LowerSplit(text[..2], rest);
    }
  }

  lemma LowerSplit(s: string, t: string)
    requires forall i | 0 <= i < |s| :: LowerChar(s[i]) == s[i]
    requires ToLower(t) == t
    ensures ToLower(s + t) == s + t
  {
    forall k | 0 <= k < |s + t| ensures ToLower(s + t)[k] == (s + t)[k] {
      if k >= |s| {
        assert (s + t)[k] == t[k - |s|] == ToLower(t)[k - |s|];
      }
    }
  }

  lemma HexPairDecodes(b: byte, text: string)
    requires |text| >= 2 && |text| % 2 == 0
    requires text[0] == HEX[b / 16] && text[1] == HEX[b % 16]
    ensures LowerChar(text[0]) == text[0] && LowerChar(text[1]) == text[1]
    ensures DecodeHex(text[2..]).Some? ==> DecodeHex(text) == Some([b] + DecodeHex(text[2..]).value)
  {
    HexOfDigit(b / 16);
    HexOfDigit(b % 16);
    assert b / 16 * 16 + b % 16 == b;
  }

  lemma HexOfDigit(d: nat)
    requires d < 16
    ensures HexValue(HEX[d]) == Some(d) && LowerChar(HEX[d]) == HEX[d]
  {
  }

  /** Decoding forgets only the case of the digits. */
  lemma {:induction false} DecodeHexKeepsText(s: string, text: string)
    requires |s| % 2 == 0 && |text| == |s|
    requires DecodeHex(s).Some? && DecodeHex(text) == DecodeHex(s) && text == ToLower(text)
    ensures text == ToLower(s)
  {
    if s != "" {
      var a, b := HexValue(s[0]).value, HexValue(s[1]).value;
      var c, d := HexValue(text[0]).value, HexValue(text[1]).value;
      assert DecodeHex(s).value[0] == a * 16 + b && DecodeHex(text).value[0] == c * 16 + d;
      assert a == c && b == d;
      assert DecodeHex(s).value[1..] == DecodeHex(s[2..]).value;
      assert DecodeHex(text).value[1..] == DecodeHex(text[2..]).value;
      forall k | 0 <= k < |text[2..]| ensures text[2..][k] == LowerChar(text[2..][k]) {
        assert text[k + 2] == ToLower(text)[k + 2];
      }
      DecodeHexKeepsText(s[2..], text[2..]);
      HexDigit(s[0]); HexDigit(s[1]); HexDigit(text[0]); HexDigit(text[1]);
      assert text[0] == ToLower(text)[0] && text[1] == ToLower(text)[1];
      forall k | 0 <= k < |s| ensures text[k] == LowerChar(s[k]) {
        if k >= 2 {
          assert text[2..][k - 2] == ToLower(s[2..])[k - 2];
        }
      }
    }
  }

  // --- rows ------------------------------------------------------------------

  /** One row as MySQL holds it; `None` is NULL. */
  datatype DbRow = DbRow(
    merchant: string, txn: seq<byte>, order: string, amount: nat, currency: nat, status: nat, payMethod: nat,
    pi: Option<string>, session: Option<string>, createdAt: int)

  datatype CodecError =
    MerchantTooLong | BadTransactionId | BadOrderId | NegativeAmount | UnknownCurrency | UnknownStatus

  function NullIfEmpty(s: string): Option<string> { if s == "" then None else Some(s) }

  function EmptyIfNull(o: Option<string>): string { if o.None? then "" else o.value }

  /** The value checks and encodings of an insert, in the order the code makes them. */
  function EncodeRow(t: Transaction): Result<DbRow, CodecError> {
    if |t.merchant| > 16 then Err(MerchantTooLong)
    else if DecodeHex16(t.id).None? then Err(BadTransactionId)
    else if !ValidOrderId(t.order) then Err(BadOrderId)
    else if t.amount < 0 then Err(NegativeAmount)
    else if EncodeCurrency(t.currency).None? then Err(UnknownCurrency)
    else if EncodeStatus(t.status).None? then Err(UnknownStatus)
    else Ok(DbRow(t.merchant, DecodeHex16(t.id).value, t.order, t.amount, EncodeCurrency(t.currency).value,
                  EncodeStatus(t.status).value, EncodeMethod(t.payMethod), NullIfEmpty(t.pi), NullIfEmpty(t.session),
                  t.createdAt))
  }

  /** Go's `int64(uint64)` conversion: the low 64 bits, read as two's complement. */
  function WrapInt64(x: int): (r: int64)
    ensures (r - x) % TWO_64 == 0
  {
    var low := x % TWO_64;
    if low < TWO_63 then low else low - TWO_64
  }

  /** The scan: rows whose currency or status code is unknown are errors. The
      shard is stamped by the caller, so it is an argument here. */
  method ScanRow(row: DbRow, shard: nat) returns (r: Result<Transaction, CodecError>)
    ensures r.Err? <==> DecodeCurrency(row.currency).None? || DecodeStatus(row.status).None?
    ensures r.Ok? ==>
              && r.value.merchant == row.merchant && r.value.order == row.order
              && r.value.id == ToLower(r.value.id) && |r.value.id| == 2 * |row.txn|
              && DecodeHex(r.value.id) == Some(row.txn)
              && r.value.amount == WrapInt64(row.amount)
              && DecodeCurrency(row.currency) == Some(r.value.currency)
              && DecodeStatus(row.status) == Some(r.value.status)
              && r.value.payMethod == DecodeMethod(row.payMethod)
              && r.value.pi == EmptyIfNull(row.pi) && r.value.session == EmptyIfNull(row.session)
              && r.value.createdAt == row.createdAt && r.value.shard == shard
  {
    var currency := DecodeCurrency(row.currency);
    if currency.None? {
      return Err(UnknownCurrency);
    }
    var status := DecodeStatus(row.status);
    if status.None? {
      return Err(UnknownStatus);
    }
    var id := HexLower(row.txn);
    r := Ok(Transaction(row.merchant, id, row.order, WrapInt64(row.amount), currency.value, status.value,
                        DecodeMethod(row.payMethod), EmptyIfNull(row.session), EmptyIfNull(row.pi), row.createdAt,
                        shard));
  }

  /** What storing a transaction and reading it back changes: letter case of the
      id and currency, and the spelling of the method. */
  function Stored(t: Transaction): Transaction {
    t.(id := ToLower(t.id), currency := ToUpper(t.currency), payMethod := StoredMethod(t.payMethod))
  }

  /** The facts a scan of an encoded transaction starts from. */
  lemma EncodedFields(t: Transaction)
    requires EncodeRow(t).Ok?
    ensures var row := EncodeRow(t).value;
            && DecodeCurrency(row.currency) == Some(ToUpper(t.currency))
            && DecodeStatus(row.status) == Some(t.status)
            && WrapInt64(row.amount) == t.amount
            && EmptyIfNull(row.pi) == t.pi && EmptyIfNull(row.session) == t.session
            && |t.id| == 32 && DecodeHex(t.id) == Some(row.txn)
  {
    CurrencyRoundTrip(t.currency);
  }

  /** Insert, then scan: every storable transaction comes back as `Stored`. */
  method InsertThenScan(t: Transaction) returns (r: Result<Transaction, CodecError>)
    ensures r.Ok? <==> |t.merchant| <= 16 && DecodeHex16(t.id).Some? && ValidOrderId(t.order) && t.amount >= 0
                       && EncodeCurrency(t.currency).Some? && !t.status.Other?
    ensures r.Ok? ==> r.value == Stored(t)
  {
    var encoded := EncodeRow(t);
    if encoded.Err? {
      return Err(encoded.error);
    }
    EncodedFields(t);
    r := ScanRow(encoded.value, t.shard);
    DecodeHexKeepsText(t.id, r.value.id);
  }
}
