/**
 * Byte strings, 256-bit words and the hash oracle. The hash is a parameter of every authenticated
 * structure; security statements assume it is free of collisions on an explicit finite set, the
 * strings actually hashed, because no hash to 256 bits is injective on all byte strings.
 */
module Hashing {
  type Byte = b: int | 0 <= b < 256

  type Bytes = seq<Byte>

  function Zeros(n: nat): Bytes {
    seq(n, _ => 0)
  }

  function Pow256(k: nat): nat {
    if k == 0 then 1 else 256 * Pow256(k - 1)
  }

  lemma {:induction false} Pow256Monotone(j: nat, k: nat)
    requires j <= k
    ensures 0 < Pow256(j) <= Pow256(k)
  {
    if k > 0 {
      if j < k {
        Pow256Monotone(j, k - 1);
      } else {
        Pow256Monotone(j - 1, k - 1);
      }
    }
  }

  const WORD_LIMIT: nat := 0x1_0000_0000_0000_0000_0000_0000_0000_0000_0000_0000_0000_0000_0000_0000_0000_0000

  /** An account address has 20 bytes. */
  const ADDRESS_LIMIT: nat := 0x1_0000_0000_0000_0000_0000_0000_0000_0000_0000_0000

  lemma LimitsArePowers()
    ensures WORD_LIMIT == Pow256(32) && ADDRESS_LIMIT == Pow256(20)
  {
    assert Pow256(8) == 0x1_0000_0000_0000_0000;
    assert Pow256(14) == 0x1_0000_0000_0000_0000_0000_0000_0000;
    assert Pow256(26) == 0x1_0000_0000_0000_0000_0000_0000_0000_0000_0000_0000_0000_0000_0000;
  }

  type Word256 = n: nat | n < WORD_LIMIT

  type Address = a: nat | a < ADDRESS_LIMIT

  type HashFn = Bytes -> Word256

  ghost predicate CollisionFree(H: HashFn, s: set<Bytes>) {
    forall x, y :: x in s && y in s && H(x) == H(y) ==> x == y
  }

  /** Big-endian, exactly len bytes; higher bytes are dropped. */
  function BigEndian(n: nat, len: nat): (r: Bytes)
    ensures |r| == len
  {
    if len == 0 then [] else BigEndian(n / 256, len - 1) + [n % 256]
  }

  lemma {:induction false} BigEndianInjective(m: nat, n: nat, len: nat)
    requires m < Pow256(len) && n < Pow256(len) && BigEndian(m, len) == BigEndian(n, len)
    ensures m == n
  {
    if len > 0 {
      var x, y := BigEndian(m / 256, len - 1), BigEndian(n / 256, len - 1);
      assert x + [m % 256] == y + [n % 256];
      assert (x + [m % 256])[len - 1] == (y + [n % 256])[len - 1];
      assert (x + [m % 256])[..len - 1] == x && (y + [n % 256])[..len - 1] == y;
      BigEndianInjective(m / 256, n / 256, len - 1);
    }
  }

  /** The 32 big-endian bytes of n. */
  function Word(n: nat): (r: Bytes)
    ensures |r| == 32
  {
    seq(32, i requires 0 <= i < 32 => BigEndian(n, 32)[i])
  }

  lemma WordInjective(m: Word256, n: Word256)
    ensures Word(m) == Word(n) ==> m == n
  {
    LimitsArePowers();
    assert Word(m) == BigEndian(m, 32) && Word(n) == BigEndian(n, 32);
    if Word(m) == Word(n) {
      BigEndianInjective(m, n, 32);
    }
  }

  /** Fixed-length heads can be cut off both sides of an equation. */
  lemma SplitEqual(x: Bytes, y: Bytes, x': Bytes, y': Bytes)
    requires x + y == x' + y' && |x| == |x'|
    ensures x == x' && y == y'
  {
    assert (x + y)[..|x|] == x && (x' + y')[..|x|] == x';
    assert (x + y)[|x|..] == y && (x' + y')[|x|..] == y';
  }

  lemma MiddleEqual(head: Bytes, x: Bytes, y: Bytes, tail: Bytes)
    requires head + x + tail == head + y + tail && |x| == |y|
    ensures x == y
  {
    SplitEqual(head + x, tail, head + y, tail);
    SplitEqual(head, x, head, y);
  }
}
