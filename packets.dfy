/** The datagram both programs exchange, its control flags, and the data
    letters the sender puts in it. */
module Packets {

  /** Control flags carried in `Packet.flag`. */
  const SYN := 1
  const SYN_ACK := 2
  const ACK := 3
  const RST := 4

  /** One datagram: sequence number, acknowledgement number, control flag and
      a one-character payload (kept as its integer code). */
  datatype Packet = Packet(seqNum: int, ackNum: int, flag: int, payload: int)

  const LETTER_A := 'A' as int
  const LETTER_Z := 'Z' as int

  /** The payload a corrupted data packet carries in place of its letter. */
  const CORRUPTED := '?' as int

  /** C's `/`: the quotient truncates toward zero. */
  function CDiv(a: int, b: int): (q: int)
    requires b > 0
    ensures a >= 0 ==> 0 <= q && q * b <= a
    ensures a <= 0 ==> q <= 0 && a <= q * b
  {
    if a >= 0 then a / b else -((-a) / b)
  }

  /** C's `%`: the remainder that goes with the truncating quotient, so
      `(a / b) * b + a % b == a` as C guarantees; it has the sign of the
      dividend and a magnitude below the divisor. */
  function CRem(a: int, b: int): (r: int)
    requires b > 0
    ensures CDiv(a, b) * b + r == a
    ensures -b < r < b
    ensures a >= 0 ==> 0 <= r
    ensures a <= 0 ==> r <= 0
    ensures a >= 0 ==> r == a % b
  {
    if a >= 0 then a % b else -((-a) % b)
  }

  /** The letter the sender puts in data packet `n`: `'A' + ((n - 1) % 26)`
      with C's remainder. From sequence number 1 on it cycles through 'A'..'Z',
      so it is never the corruption marker. */
  function DataPayload(n: int): (c: int)
    ensures 1 <= n ==> LETTER_A <= c <= LETTER_Z
    ensures 1 <= n ==> c != CORRUPTED
  {
    LETTER_A + CRem(n - 1, 26)
  }

  /** The truncating remainder is odd in the dividend, `(-a) % b == -(a % b)`
      in C, which Dafny's Euclidean `%` does not satisfy: for a negative
      dividend it is minus the remainder of the magnitude. */
  lemma CRemOdd(a: int, b: int)
    requires b > 0
    ensures CRem(-a, b) == -CRem(a, b)
    ensures a < 0 ==> CRem(a, b) == -((-a) % b)
    ensures CRem(a, b) < 0 ==> CRem(a, b) != a % b
  {
  }
}
