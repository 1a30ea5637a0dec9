/** Timestamps are signed numbers of nanoseconds; the time between two of them is cut down to 64 bits. */
module Clock {
  const WRAP: nat := 0x1_0000_0000_0000_0000

  function Elapsed(since: int, now: int): (d: nat)
    ensures since <= now ==> d <= now - since
    ensures since <= now < since + WRAP ==> d == now - since
  {
    (now - since) % 0x1_0000_0000_0000_0000
  }
}
