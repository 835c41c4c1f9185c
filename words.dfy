/** Bytes, big-endian words and the bit counting used by the housekeeping
    mask. The JavaScript `DataView` reads become arithmetic on a `seq<byte>`. */
module Words {

  type byte = x: int | 0 <= x < 0x100
  type u16 = x: int | 0 <= x < 0x1_0000
  type u32 = x: int | 0 <= x < 0x1_0000_0000

  /** `DataView.getUint16(i, false)`: the big-endian 16-bit word at offset i. */
  function BE16(b: seq<byte>, i: nat): u16
    requires i + 2 <= |b|
  {
    b[i] as int * 0x100 + b[i + 1]
  }

  /** `DataView.getUint32(i, false)`: the big-endian 32-bit word at offset i. */
  function BE32(b: seq<byte>, i: nat): u32
    requires i + 4 <= |b|
  {
    BE16(b, i) as int * 0x1_0000 + BE16(b, i + 2)
  }

  /** The two bytes a sender puts on the wire for a 16-bit word. */
  function Split16(w: u16): (b: seq<byte>)
    ensures |b| == 2 && BE16(b, 0) == w
  {
    [w / 0x100, w % 0x100]
  }

  /** The four bytes a sender puts on the wire for a 32-bit word: the high
      half first. */
  function Split32(w: u32): (b: seq<byte>)
    ensures |b| == 4 && BE32(b, 0) == w
  {
    var hi, lo := Split16(w / 0x1_0000), Split16(w % 0x1_0000);
    assert BE32(hi + lo, 0) == BE16(hi, 0) * 0x1_0000 + BE16(lo, 0);
    hi + lo
  }

  lemma MulAtLeast(d: int, n: int)
    requires d >= 1 && n > 0
    ensures d * n >= n
  {
    var e := d - 1;
    assert d * n == e * n + n;
  }

  /** Quotient and remainder are the only q and r with a == q * n + r and
      0 <= r < n. */
  lemma DivModUnique(a: int, n: int, q: int, r: int)
    requires n > 0 && 0 <= r < n && a == q * n + r
    ensures a / n == q && a % n == r
  {
    var q', r' := a / n, a % n;
    assert a == q' * n + r';
    if q > q' {
      assert (q - q') * n == q * n - q' * n;
      MulAtLeast(q - q', n);
    } else if q < q' {
      assert (q' - q) * n == q' * n - q * n;
      MulAtLeast(q' - q, n);
    }
  }

  /** Taking n away from k does not change k modulo n. */
  lemma ModSub(k: nat, n: nat)
    requires 0 < n <= k
    ensures (k - n) % n == k % n
  {
    var q, r := k / n, k % n;
    assert (q - 1) * n == q * n - n;
    DivModUnique(k - n, n, q - 1, r);
  }

  /** Reading a 16-bit word off the wire and sending it again gives back
      the same two bytes. */
  lemma Split16OfBE16(b: seq<byte>, i: nat)
    requires i + 2 <= |b|
    ensures Split16(BE16(b, i)) == b[i..i + 2]
  {
    DivModUnique(BE16(b, i), 0x100, b[i], b[i + 1]);
  }

  /** Reading a 32-bit word off the wire and sending it again gives back
      the same four bytes. */
  lemma Split32OfBE32(b: seq<byte>, i: nat)
    requires i + 4 <= |b|
    ensures Split32(BE32(b, i)) == b[i..i + 4]
  {
    DivModUnique(BE32(b, i), 0x1_0000, BE16(b, i), BE16(b, i + 2));
    Split16OfBE16(b, i);
    Split16OfBE16(b, i + 2);
    assert b[i..i + 4] == b[i..i + 2] + b[i + 2..i + 4];
  }

  /** Bit i of c (bit 0 is the least significant one), read by shifting
      right i times and testing the low bit. */
  predicate BitSet(c: nat, i: nat)
  {
    if i == 0 then c % 2 == 1 else BitSet(c / 2, i - 1)
  }

  /** The number of set bits among the k low bits of c, counted the way the
      housekeeping loop does: test bit 0, shift right, k times. */
  function Ones(c: nat, k: nat): nat
    decreases k, c
  {
    if k == 0 then 0 else c % 2 + Ones(c / 2, k - 1)
  }

  /** Ones counts exactly the set bits: one more bit scanned adds one iff
      that bit is set. */
  lemma {:induction false} OnesStep(c: nat, k: nat)
    ensures Ones(c, k + 1) == Ones(c, k) + (if BitSet(c, k) then 1 else 0)
  {
    if k == 0 {
    } else {
      OnesStep(c / 2, k - 1);
    }
  }

  /** Scanning one bit, from (c, k) to (c', k'): the bit's value plus the
      count of the rest is the count of the whole. */
  lemma OnesShift(c: nat, k: nat, c': nat, k': nat)
    requires k > 0 && c' == c / 2 && k' == k - 1
    ensures c % 2 + Ones(c', k') == Ones(c, k)
  {
  }

  /** The positions below k whose bit is set in c. */
  function BitsBelow(c: nat, k: nat): set<nat>
  {
    set i: nat | i < k && BitSet(c, i)
  }

  /** Ones(c, k) is the number of positions below k whose bit is set. */
  lemma {:induction false} OnesIsPopCount(c: nat, k: nat)
    ensures Ones(c, k) == |BitsBelow(c, k)|
  {
    if k == 0 {
      assert BitsBelow(c, k) == {};
    } else {
      OnesIsPopCount(c, k - 1);
      OnesStep(c, k - 1);
      var s := BitsBelow(c, k - 1);
      if BitSet(c, k - 1) {
        assert k - 1 !in s;
        assert BitsBelow(c, k) == s + {k - 1};
      } else {
        assert BitsBelow(c, k) == s;
      }
    }
  }
}
