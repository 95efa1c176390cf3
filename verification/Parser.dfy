/** Reading a PaymentReceived log: topics are 32-byte words, data is bytes. */
module Parser {
  import opened Domain

  type Bytes = seq<byte>

  datatype RawLog = RawLog(topics: seq<Bytes>, data: Bytes)

  datatype Parsed = Parsed(order: Bytes, payer: Bytes, token: Bytes, amount: nat)

  datatype ParseError = UnexpectedLog

  // --- words -----------------------------------------------------------------

  /** Drop leading zero bytes. */
  function TrimZero(b: Bytes): Bytes {
    if b == [] then [] else if b[0] != 0 then b else TrimZero(b[1..])
  }

  /** The scan: everything from the first non-zero byte on, or nothing. */
  method ScanTrimZero(b: Bytes) returns (r: Bytes)
    ensures r == TrimZero(b)
  {
    for i := 0 to |b|
      invariant TrimZero(b) == TrimZero(b[i..])
    {
      if b[i] != 0 {
        return b[i..];
      }
    }
    return [];
  }

  function Zeros(n: nat): (z: Bytes)
    ensures |z| == n && forall i | 0 <= i < n :: z[i] == 0
  {
    seq(n, _ => 0)
  }

  function LeftPad(b: Bytes, n: nat): (r: Bytes)
    requires |b| <= n
    ensures |r| == n
  {
    Zeros(n - |b|) + b
  }

  /** `o` is what trimming leaves of a word exactly when the word is `o` padded on the left
      and `o` does not itself begin with a zero. */
  lemma {:induction false} TrimUndoesPadIff(word: Bytes, o: Bytes)
    ensures TrimZero(word) == o <==> |o| <= |word| && word == LeftPad(o, |word|) && (o != [] ==> o[0] != 0)
  {
    if word == [] {
    } else if word[0] != 0 {
      assert |o| < |word| ==> LeftPad(o, |word|)[0] == 0;
      assert |word| == |o| ==> LeftPad(o, |word|) == o;
    } else {
      TrimUndoesPadIff(word[1..], o);
      if |o| < |word| {
        assert LeftPad(o, |word|) == [0] + LeftPad(o, |word| - 1);
        assert word == [0] + word[1..];
      } else if |o| == |word| {
        assert LeftPad(o, |word|) == o;
      }
    }
  }

  /** The unsigned big-endian value. */
  function BigEndian(b: Bytes): nat {
    if b == [] then 0 else BigEndian(b[..|b| - 1]) * 256 + b[|b| - 1]
  }

  function Pow256(n: nat): nat { if n == 0 then 1 else Pow256(n - 1) * 256 }

  function ToBytes(v: nat, n: nat): (b: Bytes)
    ensures |b| == n
  {
    if n == 0 then [] else ToBytes(v / 256, n - 1) + [v % 256]
  }

  lemma {:induction false} AmountRoundTrip(v: nat, n: nat)
    requires v < Pow256(n)
    ensures BigEndian(ToBytes(v, n)) == v
  {
    if n > 0 {
      AmountRoundTrip(v / 256, n - 1);
      assert ToBytes(v, n)[..n - 1] == ToBytes(v / 256, n - 1);
    }
  }

  lemma {:induction false} WordRoundTrip(b: Bytes)
    ensures BigEndian(b) < Pow256(|b|) && ToBytes(BigEndian(b), |b|) == b
  {
    if b != [] {
      WordRoundTrip(b[..|b| - 1]);
    }
  }

  // --- the event -------------------------------------------------------------

  /** The last 20 bytes. */
  function Address(b: Bytes): Bytes
    requires |b| >= 20
  {
    b[|b| - 20..]
  }

  predicate Words(log: RawLog) { forall t | t in log.topics :: |t| == 32 }

  function ParsePaymentEvent(log: RawLog): Result<Parsed, ParseError>
    requires Words(log)
  {
    if |log.topics| < 3 || |log.data| < 64 then Err(UnexpectedLog)
    else Ok(Parsed(TrimZero(log.topics[1]), Address(log.topics[2]), Address(log.data[12..32]),
                   BigEndian(log.data[32..64])))
  }

  /** A log the contract could emit: the order id and amount as 32-byte words, the addresses
      padded, whatever the signature topic and whatever follows. */
  function Emit(signature: Bytes, order: Bytes, payer: Bytes, token: Bytes, amount: nat, extra: seq<Bytes>,
                tail: Bytes): (log: RawLog)
    requires |order| <= 32 && |payer| == 20 && |token| == 20
  {
    RawLog([signature, LeftPad(order, 32), LeftPad(payer, 32)] + extra, LeftPad(token, 32) + ToBytes(amount, 32) + tail)
  }

  /** Parsing undoes emission for every amount below 2^256, and for exactly those order ids
      that do not begin with a zero byte. */
  lemma ParseUndoesEmitIff(signature: Bytes, order: Bytes, payer: Bytes, token: Bytes, amount: nat, extra: seq<Bytes>,
                           tail: Bytes)
    requires |signature| == 32 && |order| <= 32 && |payer| == 20 && |token| == 20 && amount < Pow256(32)
    requires forall t | t in extra :: |t| == 32
    ensures var log := Emit(signature, order, payer, token, amount, extra, tail);
      Words(log) && (ParsePaymentEvent(log) == Ok(Parsed(order, payer, token, amount))
                     <==> order == [] || order[0] != 0)
  {
    var log := Emit(signature, order, payer, token, amount, extra, tail);
    assert log.data[12..32] == token;
    assert log.data[32..64] == ToBytes(amount, 32);
    assert Address(log.topics[2]) == payer;
    TrimUndoesPadIff(log.topics[1], order);
    AmountRoundTrip(amount, 32);
  }

  function Ascii(o: string): (b: Bytes)
    requires ValidOrderId(o)
    ensures |b| == |o| && forall i | 0 <= i < |o| :: b[i] == o[i] as int
  {
    assert forall i | 0 <= i < |o| :: OrderChar(o[i]) by {
      forall i | 0 <= i < |o| ensures OrderChar(o[i]) { assert o[i] in o; }
    }
    seq(|o|, i requires 0 <= i < |o| => assert OrderChar(o[i]); o[i] as int)
  }

  /** Every valid order id that fits a word comes back, and no two of them are confused. */
  lemma ValidOrderIdsSurvive(o: string, p: string)
    requires ValidOrderId(o) && |o| <= 32 && ValidOrderId(p) && |p| <= 32
    ensures TrimZero(LeftPad(Ascii(o), 32)) == Ascii(o)
    ensures TrimZero(LeftPad(Ascii(o), 32)) == TrimZero(LeftPad(Ascii(p), 32)) <==> o == p
  {
    assert o[0] in o && p[0] in p;
    TrimUndoesPadIff(LeftPad(Ascii(o), 32), Ascii(o));
    TrimUndoesPadIff(LeftPad(Ascii(p), 32), Ascii(p));
    if Ascii(o) == Ascii(p) {
      assert forall i | 0 <= i < |o| :: o[i] as int == p[i] as int;
    }
  }

  /** A parsed log determines the order and amount words it came from, and the 20 address
      bytes of the payer and token words. */
  lemma ParseIsFaithful(log: RawLog)
    requires Words(log)
    ensures ParsePaymentEvent(log).Err? <==> |log.topics| < 3 || |log.data| < 64
    ensures ParsePaymentEvent(log).Ok? ==>
      var e := ParsePaymentEvent(log).value;
      && |e.order| <= 32 && log.topics[1] == LeftPad(e.order, 32)
      && e.amount < Pow256(32) && log.data[32..64] == ToBytes(e.amount, 32)
      && log.topics[2] == log.topics[2][..12] + e.payer && log.data[..32] == log.data[..12] + e.token
  {
    if |log.topics| >= 3 && |log.data| >= 64 {
      TrimUndoesPadIff(log.topics[1], TrimZero(log.topics[1]));
      WordRoundTrip(log.data[32..64]);
    }
  }
}
