/**
 The 16-bit checksum carried by every LSP data message: two's complement
 truncations and 32-bit wrap-around are written out over unbounded integers.
 */
module Checksum {

  type byte = x: int | 0 <= x < 256

  const WORD := 0x1_0000
  const DWORD := 0x1_0000_0000

  /** An integer field of the header: its two low 16-bit halves, added in 16 bits. */
  function Int2Checksum(value: int): (r: int)
    ensures 0 <= r < WORD
  {
    var v := value % DWORD;
    (v % WORD + v / WORD) % WORD
  }

  /** The exact sum of the little-endian 16-bit chunks, the last one padded with a zero byte. */
  function ChunkSum(p: seq<byte>): nat {
    if |p| == 0 then 0
    else if |p| == 1 then p[0]
    else p[0] + 256 * p[1] + ChunkSum(p[2..])
  }

  /** The representative modulo 65535 that end-around folding reaches; 0 stands for 0 alone. */
  function Fold(sum: nat): (r: nat)
    ensures r <= 0xffff
  {
    if sum == 0 then 0 else (sum - 1) % 0xffff + 1
  }

  /** The exact sum that the header fields and the payload contribute. */
  function Total(connID: int, seqNum: int, size: int, payload: seq<byte>): nat {
    Int2Checksum(connID) + Int2Checksum(seqNum) + Int2Checksum(size) + ChunkSum(payload)
  }

  /** The checksum as a formula: the complement of the folded 32-bit sum. */
  function Sum16(connID: int, seqNum: int, size: int, payload: seq<byte>): int {
    0xffff - Fold(Total(connID, seqNum, size, payload) % DWORD)
  }

  lemma AddModulo(a: nat, b: nat)
    ensures (a + b % DWORD) % DWORD == (a + b) % DWORD
  {
    assert a + b == a + b % DWORD + DWORD * (b / DWORD);
  }

  method ByteArray2Checksum(value: seq<byte>) returns (sum: nat)
    ensures sum == ChunkSum(value) % DWORD
  {
    sum := 0;
    var numChunks := |value| / 2 + |value| % 2;
    var lastIdx := |value| - 1;
    ghost var exact: nat := 0;
    for i := 0 to numChunks
      invariant sum == exact % DWORD
      invariant exact + (if 2 * i <= |value| then ChunkSum(value[2 * i..]) else 0) == ChunkSum(value)
    {
      var startIdx := i * 2;
      var chunk: nat;
      if startIdx < lastIdx {
        var lo: int, hi: int := value[startIdx], value[startIdx + 1];
        chunk := lo + 256 * hi;
        assert value[startIdx..][2..] == value[2 * (i + 1)..];
      } else {
        chunk := value[startIdx];
      }
      AddModulo(chunk, exact);
      sum := (sum + chunk) % DWORD;
      exact := exact + chunk;
    }
  }

  lemma FoldRound(sum: nat)
    requires 0xffff < sum < DWORD
    ensures Fold(sum / WORD + sum % WORD) == Fold(sum)
    ensures sum / WORD + sum % WORD <= 2 * 0xffff
    ensures sum <= 2 * 0xffff ==> sum / WORD + sum % WORD <= 0xffff
  {
    var h := sum / WORD;
    var folded := h + sum % WORD;
    assert sum - 1 == (folded - 1) + 0xffff * h;
  }

  /** The end-around fold loop: two rounds are enough, and they reach the representative modulo 65535. */
  method FoldSum(start: nat) returns (sum: nat, ghost rounds: nat)
    requires start < DWORD
    ensures sum == Fold(start) && rounds <= 2
  {
    sum, rounds := start, 0;
    while sum > 0xffff
      invariant sum < DWORD && Fold(sum) == Fold(start)
      invariant rounds <= 2
      invariant rounds == 1 ==> sum <= 2 * 0xffff
      invariant rounds == 2 ==> sum <= 0xffff
    {
      FoldRound(sum);
      sum := sum / WORD + sum % WORD;
      rounds := rounds + 1;
    }
    FoldSmall(sum);
  }

  lemma FoldSmall(sum: nat)
    requires sum <= 0xffff
    ensures Fold(sum) == sum
  {
  }

  method CalculateChecksum(connID: int, seqNum: int, size: int, payload: seq<byte>) returns (res: int, ghost rounds: nat)
    ensures res == Sum16(connID, seqNum, size, payload)
    ensures rounds <= 2
  {
    var bytes := ByteArray2Checksum(payload);
    var header := Int2Checksum(connID) + Int2Checksum(seqNum) + Int2Checksum(size);
    AddModulo(header, ChunkSum(payload));
    var sum;
    sum, rounds := FoldSum((header + bytes) % DWORD);
    res := 0xffff - sum;
  }

  /** Two 32-bit sums fold to the same value only if both are zero, or neither is and they agree modulo 65535. */
  lemma FoldInjective(x: nat, y: nat)
    ensures Fold(x) == Fold(y) <==> (x == 0 && y == 0) || (x > 0 && y > 0 && (x - y) % 0xffff == 0)
  {
    if x > 0 && y > 0 {
      var q, r := (x - 1) / 0xffff, (y - 1) / 0xffff;
      assert x - y == 0xffff * (q - r) + ((x - 1) % 0xffff - (y - 1) % 0xffff);
    }
  }

  /** A sum moved by less than 65535 never folds to the same value, even across the 32-bit wrap-around. */
  lemma SmallChangeChangesFold(total: nat, d: int)
    requires 0 < d < 0xffff
    ensures Fold(total % DWORD) != Fold((total + d) % DWORD)
  {
    var x := total % DWORD;
    var y := (total + d) % DWORD;
    assert y == x + d || y == x + d - DWORD;
    FoldInjective(x, y);
    if y == x + d - DWORD {
      // 2^32 leaves 1 modulo 65535, so only a step of exactly one could hide, and that one lands on zero.
      assert DWORD == 0xffff * 0x10001 + 1;
      assert x - y == 0xffff * 0x10001 + (1 - d);
    }
  }

  lemma DifferentTotals(t: nat, u: nat)
    requires t != u && -0xffff < t - u < 0xffff
    ensures Fold(t % DWORD) != Fold(u % DWORD)
  {
    if t < u {
      SmallChangeChangesFold(t, u - t);
    } else {
      SmallChangeChangesFold(u, t - u);
    }
  }

  /** What a byte counts for: the low byte of a chunk once, the high byte 256 times. */
  function Weight(i: nat): nat {
    if i % 2 == 0 then 1 else 256
  }

  /** The sum of the chunks is 0 for zero bytes, and moves with every byte by its weight. */
  lemma {:induction false} ChunkSumZero(p: seq<byte>)
    requires forall i :: 0 <= i < |p| ==> p[i] == 0
    ensures ChunkSum(p) == 0
  {
    if |p| >= 2 {
      ChunkSumZero(p[2..]);
    }
  }

  lemma {:induction false} ChunkSumAt(p: seq<byte>, i: nat, b: byte)
    requires i < |p|
    ensures ChunkSum(p[i := b]) == ChunkSum(p) + Weight(i) * (b - p[i])
  {
    if |p| > 1 {
      if i < 2 {
        assert p[i := b][2..] == p[2..];
      } else {
        assert p[i := b][2..] == p[2..][i - 2 := b];
        ChunkSumAt(p[2..], i - 2, b);
      }
    }
  }

  /** Any change of one payload byte is detected, wherever it is and however long the payload. */
  lemma ByteChangeDetected(connID: int, seqNum: int, size: int, payload: seq<byte>, i: nat, b: byte)
    requires i < |payload| && b != payload[i]
    ensures Sum16(connID, seqNum, size, payload[i := b]) != Sum16(connID, seqNum, size, payload)
  {
    ChunkSumAt(payload, i, b);
    DifferentTotals(Total(connID, seqNum, size, payload), Total(connID, seqNum, size, payload[i := b]));
  }

  /** A header field below 65536 counts with exactly its value; 2^16 counts like 1, and -1 like 65534. */
  lemma HeaderValue(v: int)
    ensures 0 <= v < WORD ==> Int2Checksum(v) == v
    ensures Int2Checksum(WORD) == 1 && Int2Checksum(-1) == 65534
  {
  }

  /** A message whose fields are below 65536 has the checksum of their plain sum with the bytes of the payload. */
  lemma HeaderCounts(connID: nat, seqNum: nat, size: nat, payload: seq<byte>)
    requires connID < WORD && seqNum < WORD && size < WORD
    ensures Sum16(connID, seqNum, size, payload) == 0xffff - Fold((connID + seqNum + size + ChunkSum(payload)) % DWORD)
  {
    HeaderValue(connID);
    HeaderValue(seqNum);
    HeaderValue(size);
  }

  /** Two sequence numbers below 65535 never get the same checksum on the same payload. */
  lemma NumberChangeDetected(connID: int, k: nat, l: nat, size: int, payload: seq<byte>)
    requires k < 0xffff && l < 0xffff && k != l
    ensures Sum16(connID, k, size, payload) != Sum16(connID, l, size, payload)
  {
    HeaderValue(k);
    HeaderValue(l);
    DifferentTotals(Total(connID, k, size, payload), Total(connID, l, size, payload));
  }
}
