/**
 The miner: the least hash over a range of nonces, in 64-bit arithmetic.
 */
module Mining {

  const WORD := 0x1_0000_0000_0000_0000

  /** `(h, n)` is the least hash of `data` over `lower..upper` and the first nonce that attains it. */
  ghost predicate Least(hash: (string, nat) -> nat, data: string, lower: nat, upper: nat, h: nat, n: nat) {
    && lower <= n <= upper && h == hash(data, n)
    && (forall i :: lower <= i <= upper ==> h <= hash(data, i))
    && (forall i :: lower <= i < n ==> h < hash(data, i))
  }

  /**
   The loop stops short of `upper + 1`, which wraps around for the greatest upper bound there is; then,
   or if the range is empty, nothing is scanned.
   */
  method Mine(hash: (string, nat) -> nat, data: string, lower: nat, upper: nat) returns (h: nat, n: nat)
    requires lower < WORD && upper < WORD
    ensures lower <= upper && upper + 1 < WORD ==> Least(hash, data, lower, upper, h, n)
    ensures lower > upper || upper + 1 == WORD ==> h == hash(data, lower) && n == lower
  {
    n, h := lower, hash(data, lower);
    var end := (upper + 1) % WORD;
    var i := lower;
    while i < end
      invariant lower <= i && (lower < end ==> i <= end)
      invariant lower <= n && h == hash(data, n) && (n < i || n == lower)
      invariant forall j :: lower <= j < i ==> h <= hash(data, j)
      invariant forall j :: lower <= j < n ==> h < hash(data, j)
      invariant i == lower ==> n == lower
      invariant end <= lower ==> i == lower
    {
      var here := hash(data, i);
      if here < h {
        n, h := i, here;
      }
      i := i + 1;
    }
  }
}
