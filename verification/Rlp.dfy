/** Recursive-length-prefix encoding (Ethereum Yellow Paper, Appendix B) and its injectivity. */
module Rlp {
  import opened Prelude
  import opened Hashing

  datatype Node = Str(bytes: Bytes) | List(items: seq<Node>)

  /** Big-endian without leading zeros; zero is the empty string. */
  function Minimal(n: nat): Bytes {
    if n == 0 then [] else Minimal(n / 256) + [n % 256]
  }

  function Header(len: nat, offset: nat): Bytes {
    if len <= 55 then [(offset + len) % 256]
    else [(offset + 55 + |Minimal(len)|) % 256] + Minimal(len)
  }

  function Encode(n: Node): Bytes
    decreases n, 1
  {
    match n
    case Str(b) => if |b| == 1 && b[0] < 128 then b else Header(|b|, 128) + b
    case List(items) => var payload := EncodeAll(items); Header(|payload|, 192) + payload
  }

  function EncodeAll(items: seq<Node>): Bytes
    decreases items, 0
  {
    if items == [] then [] else Encode(items[0]) + EncodeAll(items[1..])
  }

  const PAYLOAD_LIMIT: nat := 0x1_0000_0000_0000_0000

  /** Every payload is shorter than 2^64 bytes, the range the length prefix can express. */
  ghost predicate Fits(n: Node)
    decreases n, 1
  {
    match n
    case Str(b) => |b| < PAYLOAD_LIMIT
    case List(items) => |EncodeAll(items)| < PAYLOAD_LIMIT && AllFit(items)
  }

  ghost predicate AllFit(items: seq<Node>)
    decreases items, 0
  {
    items == [] || (Fits(items[0]) && AllFit(items[1..]))
  }

  lemma {:induction false} MinimalInjective(m: nat, n: nat)
    requires Minimal(m) == Minimal(n)
    ensures m == n
  {
    if m > 0 && n > 0 {
      var x, y := Minimal(m / 256), Minimal(n / 256);
      assert (x + [m % 256])[..|x|] == x && (y + [n % 256])[..|y|] == y;
      assert |x| == |y|;
      assert (x + [m % 256])[|x|] == m % 256 && (y + [n % 256])[|y|] == n % 256;
      MinimalInjective(m / 256, n / 256);
    }
  }

  lemma {:induction false} MinimalLength(n: nat, k: nat)
    requires n < Pow256(k)
    ensures |Minimal(n)| <= k
    ensures n > 0 ==> |Minimal(n)| > 0
  {
    if n > 0 {
      MinimalLength(n / 256, k - 1);
    }
  }

  /** The first byte of a header tells strings from lists and short from long. */
  lemma HeaderShape(len: nat, offset: nat)
    requires len < PAYLOAD_LIMIT && offset in [128, 192]
    ensures var h := Header(len, offset);
            |h| > 0 && offset <= h[0] < offset + 64
            && (len <= 55 <==> h[0] <= offset + 55)
            && (len <= 55 ==> h == [offset + len])
            && (len > 55 ==> h == [offset + 55 + |Minimal(len)|] + Minimal(len))
  {
    if len > 55 {
      assert Pow256(8) == PAYLOAD_LIMIT;
      MinimalLength(len, 8);
      var k := |Minimal(len)|;
      assert 1 <= k <= 8 && (offset + 55 + k) % 256 == offset + 55 + k;
    } else {
      assert (offset + len) % 256 == offset + len;
    }
  }

  lemma HeaderInjective(len: nat, offset: nat, s: Bytes, len': nat, offset': nat, s': Bytes)
    requires len < PAYLOAD_LIMIT && len' < PAYLOAD_LIMIT && offset in [128, 192] && offset' in [128, 192]
    requires Header(len, offset) + s == Header(len', offset') + s'
    ensures len == len' && offset == offset' && s == s'
  {
    HeaderShape(len, offset);
    HeaderShape(len', offset');
    var h, h' := Header(len, offset), Header(len', offset');
    assert h[0] == (h + s)[0] == (h' + s')[0] == h'[0];
    SplitEqual(h, s, h', s');
    if len > 55 {
      assert h[1..] == Minimal(len) && h'[1..] == Minimal(len');
      MinimalInjective(len, len');
    }
  }

  lemma EncodeShape(n: Node)
    requires Fits(n)
    ensures Encode(n) != []
    ensures n.List? ==> Encode(n)[0] >= 192
    ensures n.Str? ==> Encode(n)[0] < 192
    ensures n.Str? && !(|n.bytes| == 1 && n.bytes[0] < 128) ==> Encode(n)[0] >= 128
  {
    match n {
      case Str(b) => HeaderShape(|b|, 128);
      case List(items) => HeaderShape(|EncodeAll(items)|, 192);
    }
  }

  lemma SamePrefix(x: Bytes, s: Bytes, y: Bytes, t: Bytes)
    requires x != [] && y != [] && x + s == y + t
    ensures x[0] == y[0]
  {
    assert (x + s)[0] == x[0] && (y + t)[0] == y[0];
  }

  lemma SplitPayloads(offset: nat, p: Bytes, s: Bytes, q: Bytes, t: Bytes)
    requires |p| < PAYLOAD_LIMIT && |q| < PAYLOAD_LIMIT && (offset == 128 || offset == 192)
    requires Header(|p|, offset) + (p + s) == Header(|q|, offset) + (q + t)
    ensures p == q && s == t
  {
    HeaderInjective(|p|, offset, p + s, |q|, offset, q + t);
    SplitEqual(p, s, q, t);
  }

  /** Payloads behind headers of one kind are read back. */
  lemma PayloadsDecode(offset: nat, p: Bytes, s: Bytes, q: Bytes, t: Bytes)
    requires |p| < PAYLOAD_LIMIT && |q| < PAYLOAD_LIMIT && (offset == 128 || offset == 192)
    requires Header(|p|, offset) + p + s == Header(|q|, offset) + q + t
    ensures p == q && s == t
  {
    Regroup(Header(|p|, offset), p, s);
    Regroup(Header(|q|, offset), q, t);
    SplitPayloads(offset, p, s, q, t);
  }

  lemma StringsDecode(x: Node, s: Bytes, y: Node, t: Bytes)
    requires x.Str? && y.Str? && Fits(x) && Fits(y) && Encode(x) + s == Encode(y) + t
    ensures x == y && s == t
  {
    var b, c := x.bytes, y.bytes;
    EncodeShape(x);
    EncodeShape(y);
    SamePrefix(Encode(x), s, Encode(y), t);
    if |b| == 1 && b[0] < 128 {
      SplitEqual(b, s, c, t);
    } else {
      PayloadsDecode(128, b, s, c, t);
    }
  }

  /** Encodings are prefix-free: the node and the rest can be read back. */
  lemma {:induction false} PrefixFree(x: Node, s: Bytes, y: Node, t: Bytes)
    requires Fits(x) && Fits(y) && Encode(x) + s == Encode(y) + t
    ensures x == y && s == t
    decreases x, 1
  {
    EncodeShape(x);
    EncodeShape(y);
    SamePrefix(Encode(x), s, Encode(y), t);
    if x.Str? {
      StringsDecode(x, s, y, t);
    } else {
      PayloadsDecode(192, EncodeAll(x.items), s, EncodeAll(y.items), t);
      ListsDecode(x.items, y.items);
    }
  }

  lemma {:induction false} ListsDecode(xs: seq<Node>, ys: seq<Node>)
    requires AllFit(xs) && AllFit(ys) && EncodeAll(xs) == EncodeAll(ys)
    ensures xs == ys
    decreases xs, 0
  {
    if xs == [] || ys == [] {
      if xs != [] { EncodeShape(xs[0]); }
      if ys != [] { EncodeShape(ys[0]); }
    } else {
      PrefixFree(xs[0], EncodeAll(xs[1..]), ys[0], EncodeAll(ys[1..]));
      ListsDecode(xs[1..], ys[1..]);
      assert xs == [xs[0]] + xs[1..] && ys == [ys[0]] + ys[1..];
    }
  }

  /** Different nodes have different encodings. */
  lemma EncodeInjective(x: Node, y: Node)
    requires Fits(x) && Fits(y) && Encode(x) == Encode(y)
    ensures x == y
  {
    assert Encode(x) + [] == Encode(y) + [];
    PrefixFree(x, [], y, []);
  }
}
