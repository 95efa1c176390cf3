/** The values that travel between the gateway's components: payment status, the
    `transactions` row, and the few string operations the rest of the model needs. */
module Domain {

  datatype Option<+T> = None | Some(value: T)

  datatype Result<+T, +E> = Ok(value: T) | Err(error: E)

  type byte = b: int | 0 <= b < 256

  const TWO_63: int := 0x8000_0000_0000_0000
  const TWO_64: int := 0x1_0000_0000_0000_0000

  type int64 = x: int | -TWO_63 <= x < TWO_63

  /** `Other` stands for every string that is not one of the six declared statuses. */
  datatype Status = Created | Pending | Paid | Failed | Expired | Refunded | Other(name: string)

  /** The statuses the stuck-order scan selects. */
  predicate IsStuck(s: Status) { s.Created? || s.Pending? }

  /** The statuses the confirmation tracker treats as already finalised. */
  predicate IsFinal(s: Status) { s.Paid? || s.Refunded? }

  datatype Transaction = Transaction(
    merchant: string, id: string, order: string, amount: int64, currency: string, status: Status,
    payMethod: string, session: string, pi: string, createdAt: int, shard: nat)

  // --- Redis -----------------------------------------------------------------

  /** Redis drops a key once its clock is past the deadline, not at it. */
  predicate KeyExpired(clock: int, deadline: int) { clock > deadline }

  // --- strings ---------------------------------------------------------------

  function UpperChar(c: char): char {
    if 'a' <= c <= 'z' then (c as int - 32) as char else c
  }

  function LowerChar(c: char): char {
    if 'A' <= c <= 'Z' then (c as int + 32) as char else c
  }

  function ToUpper(s: string): (r: string)
    ensures |r| == |s| && forall i | 0 <= i < |s| :: r[i] == UpperChar(s[i])
  {
    seq(|s|, i requires 0 <= i < |s| => UpperChar(s[i]))
  }

  function ToLower(s: string): (r: string)
    ensures |r| == |s| && forall i | 0 <= i < |s| :: r[i] == LowerChar(s[i])
  {
    seq(|s|, i requires 0 <= i < |s| => LowerChar(s[i]))
  }

  predicate EqualFold(s: string, t: string) { ToLower(s) == ToLower(t) }

  // --- order ids -------------------------------------------------------------

  predicate OrderChar(c: char) {
    || 'A' <= c <= 'Z' || 'a' <= c <= 'z' || '0' <= c <= '9'
    || c == '.' || c == '_' || c == ':' || c == '-'
  }

  predicate ValidOrderId(o: string) {
    1 <= |o| <= 64 && forall c | c in o :: OrderChar(c)
  }

  /** The validation loop: scan left to right, stop at the first bad character.
      The reported position is where the longest acceptable prefix ends. */
  method ValidateOrderId(o: string) returns (ok: bool, badAt: Option<nat>)
    ensures ok <==> ValidOrderId(o)
    ensures badAt.Some? <==> 1 <= |o| <= 64 && !ok
    ensures badAt.Some? ==> badAt.value < |o| && !OrderChar(o[badAt.value])
                            && forall i | 0 <= i < badAt.value :: OrderChar(o[i])
  {
    if |o| == 0 || |o| > 64 {
      return false, None;
    }
    for i := 0 to |o|
      invariant forall j | 0 <= j < i :: OrderChar(o[j])
    {
      if !OrderChar(o[i]) {
        return false, Some(i);
      }
    }
    return true, None;
  }
}
