/**
 * Receipt trie root (pipeline/roster-source.ts, lines 84-132): hex-prefix paths, inline and hashed
 * node references, the recursive trie (Ethereum Yellow Paper, Appendices C and D) and the typed
 * receipt encoding of EIP-2718.
 */
module ReceiptTrie {
  import opened Prelude
  import opened Hashing
  import opened Rlp

  type Nibble = n: int | 0 <= n < 16

  type Path = seq<Nibble>

  datatype Item = Item(key: Path, value: Bytes)

  // ---------- Hex-prefix paths ----------

  function Pack(ns: Path): Bytes
    requires |ns| % 2 == 0
  {
    if ns == [] then []
    else
      var packed: Byte := (ns[0] as int) * 16 + (ns[1] as int);
      [packed] + Pack(ns[2..])
  }

  function Flagged(path: Path, leaf: bool): Path {
    if |path| % 2 == 1 then [if leaf then 3 else 1] + path
    else [if leaf then 2 else 0, 0] + path
  }

  function CompactPath(path: Path, leaf: bool): Bytes {
    Pack(Flagged(path, leaf))
  }

  lemma {:induction false} PackInjective(a: Path, b: Path)
    requires |a| % 2 == 0 && |b| % 2 == 0 && Pack(a) == Pack(b)
    ensures a == b
  {
    if a != [] && b != [] {
      assert Pack(a)[0] == Pack(b)[0];
      assert Pack(a)[1..] == Pack(a[2..]) && Pack(b)[1..] == Pack(b[2..]);
      PackInjective(a[2..], b[2..]);
      assert a == [a[0], a[1]] + a[2..] && b == [b[0], b[1]] + b[2..];
    }
  }

  /** A compact path determines both the nibbles and the leaf flag. */
  lemma CompactPathInjective(p: Path, leaf: bool, q: Path, leaf': bool)
    requires CompactPath(p, leaf) == CompactPath(q, leaf')
    ensures p == q && leaf == leaf'
  {
    var x, y := Flagged(p, leaf), Flagged(q, leaf');
    PackInjective(x, y);
    assert x[0] == y[0];
    if |p| % 2 == 1 {
      assert x[1..] == p && y[1..] == q;
    } else {
      assert x[2..] == p && y[2..] == q;
    }
  }

  function Nibbles(b: Bytes): (r: Path)
    ensures |r| == 2 * |b|
  {
    if b == [] then [] else [b[0] / 16, b[0] % 16] + Nibbles(b[1..])
  }

  lemma {:induction false} NibblesInjective(a: Bytes, b: Bytes)
    requires Nibbles(a) == Nibbles(b)
    ensures a == b
  {
    if a != [] {
      assert Nibbles(a)[0] == Nibbles(b)[0] && Nibbles(a)[1] == Nibbles(b)[1];
      assert Nibbles(a)[2..] == Nibbles(a[1..]) && Nibbles(b)[2..] == Nibbles(b[1..]);
      NibblesInjective(a[1..], b[1..]);
      assert a == [a[0]] + a[1..] && b == [b[0]] + b[1..];
    }
  }

  // ---------- The trie ----------

  function NodeRef(H: HashFn, node: seq<Node>): Node {
    var encoded := Encode(List(node));
    if |encoded| < 32 then List(node) else Str(Word(H(encoded)))
  }

  /** Whether all keys go on past position c and agree there, compared with the first. */
  predicate AgreeAt(items: seq<Item>, c: nat)
    requires items != []
  {
    |items[0].key| > c && forall i :: 0 <= i < |items| ==> |items[i].key| > c && items[i].key[c] == items[0].key[c]
  }

  /** Length of the common prefix beyond c. */
  function Common(items: seq<Item>, c: nat): (r: nat)
    requires items != [] && c <= |items[0].key|
    ensures c <= r <= |items[0].key|
    ensures forall k :: c <= k < r ==> AgreeAt(items, k)
    ensures !AgreeAt(items, r)
    decreases |items[0].key| - c
  {
    if AgreeAt(items, c) then Common(items, c + 1) else c
  }

  function TotalLength(items: seq<Item>): nat {
    if items == [] then 0 else |items[0].key| + TotalLength(items[1..])
  }

  /** Keys cut after their first c nibbles. */
  function Drop(items: seq<Item>, c: nat): (r: seq<Item>)
    requires forall i :: 0 <= i < |items| ==> |items[i].key| >= c
    ensures |r| == |items|
    ensures forall i :: 0 <= i < |r| ==> r[i] == Item(items[i].key[c..], items[i].value)
    ensures TotalLength(r) == TotalLength(items) - c * |items|
  {
    if items == [] then []
    else
      assert c * |items| == c + c * |items[1..]|;
      [Item(items[0].key[c..], items[0].value)] + Drop(items[1..], c)
  }

  /** Items below one branch slot, without that first nibble. */
  function Group(items: seq<Item>, nibble: int): (r: seq<Item>)
    ensures TotalLength(r) + |r| <= TotalLength(items)
  {
    if items == [] then []
    else
      var rest := Group(items[1..], nibble);
      if items[0].key != [] && items[0].key[0] == nibble
      then [Item(items[0].key[1..], items[0].value)] + rest
      else rest
  }

  function Terminal(items: seq<Item>): Bytes {
    if items == [] then [] else if items[0].key == [] then items[0].value else Terminal(items[1..])
  }

  function TrieNode(H: HashFn, items: seq<Item>): (r: seq<Node>)
    requires items != []
    ensures |r| == 2 || |r| == 17
    decreases TotalLength(items), 1
  {
    if |items| == 1 then [Str(CompactPath(items[0].key, true)), Str(items[0].value)]
    else
      var common := Common(items, 0);
      if common > 0 then
        SharedPrefix(items, common);
        [Str(CompactPath(items[0].key[..common], false)), NodeRef(H, TrieNode(H, Drop(items, common)))]
      else
        seq(16, i requires 0 <= i < 16 => Slot(H, items, i)) + [Str(Terminal(items))]
  }

  function Slot(H: HashFn, items: seq<Item>, nibble: nat): Node
    requires items != []
    decreases TotalLength(items), 0
  {
    var group := Group(items, nibble);
    if group == [] then Str([]) else NodeRef(H, TrieNode(H, group))
  }

  lemma SharedPrefix(items: seq<Item>, common: nat)
    requires items != [] && 0 < common == Common(items, 0)
    ensures forall i :: 0 <= i < |items| ==>
              |items[i].key| >= common && items[i].key[..common] == items[0].key[..common]
    ensures common * |items| > 0
  {
    assert AgreeAt(items, common - 1);
    forall i | 0 <= i < |items| ensures items[i].key[..common] == items[0].key[..common] {
      forall k | 0 <= k < common ensures items[i].key[k] == items[0].key[k] {
        assert AgreeAt(items, k);
      }
    }
    assert common * |items| >= |items| by { AtLeastOne(common, |items|); }
  }

  lemma AtLeastOne(a: nat, b: nat)
    requires a > 0
    ensures a * b >= b
  {
  }

  // ---------- The trie depends on the set of items only ----------

  ghost function Entries(items: seq<Item>): set<Item> {
    set x | x in items
  }

  ghost predicate DistinctKeys(items: seq<Item>) {
    forall i, j :: 0 <= i < j < |items| ==> items[i].key != items[j].key
  }

  lemma {:induction false} DistinctCount(items: seq<Item>)
    requires DistinctKeys(items)
    ensures |Entries(items)| == |items|
  {
    if items != [] {
      var n := |items| - 1;
      DistinctCount(items[..n]);
      assert Entries(items) == Entries(items[..n]) + {items[n]};
      assert items[n] !in items[..n];
    }
  }

  lemma AgreeOnSet(items: seq<Item>, items': seq<Item>, c: nat)
    requires items != [] && items' != [] && Entries(items) == Entries(items') && AgreeAt(items, c)
    ensures AgreeAt(items', c)
  {
    forall i | 0 <= i < |items'| ensures |items'[i].key| > c && items'[i].key[c] == items[0].key[c] {
      assert items'[i] in Entries(items);
    }
  }

  lemma CommonOnSet(items: seq<Item>, items': seq<Item>)
    requires items != [] && items' != [] && Entries(items) == Entries(items')
    ensures Common(items, 0) == Common(items', 0)
  {
    var c, c' := Common(items, 0), Common(items', 0);
    if c < c' {
      AgreeOnSet(items', items, c);
    } else if c' < c {
      AgreeOnSet(items, items', c');
    }
  }

  lemma {:induction false} GroupHolds(items: seq<Item>, nibble: Nibble, x: Item)
    ensures x in Group(items, nibble) <==> Item([nibble] + x.key, x.value) in items
  {
    if items != [] {
      GroupHolds(items[1..], nibble, x);
      assert items == [items[0]] + items[1..];
      var first := items[0];
      if first.key != [] && first.key[0] == nibble {
        assert first.key == [nibble] + first.key[1..];
        assert ([nibble] + x.key)[1..] == x.key;
      }
    }
  }

  lemma {:induction false} GroupDistinct(items: seq<Item>, nibble: Nibble)
    requires DistinctKeys(items)
    ensures DistinctKeys(Group(items, nibble))
  {
    if items != [] {
      GroupDistinct(items[1..], nibble);
      var rest, first := Group(items[1..], nibble), items[0];
      if first.key != [] && first.key[0] == nibble {
        forall j | 0 <= j < |rest| ensures rest[j].key != first.key[1..] {
          GroupHolds(items[1..], nibble, rest[j]);
          assert first.key == [nibble] + first.key[1..];
        }
      }
    }
  }

  lemma {:induction false} TerminalHolds(items: seq<Item>)
    requires DistinctKeys(items)
    ensures forall x :: x in items && x.key == [] ==> Terminal(items) == x.value
    ensures Terminal(items) != [] ==> Item([], Terminal(items)) in items
  {
    if items != [] {
      TerminalHolds(items[1..]);
      assert items == [items[0]] + items[1..];
    }
  }

  lemma GroupsOnSet(items: seq<Item>, items': seq<Item>, nibble: Nibble)
    requires Entries(items) == Entries(items') && DistinctKeys(items) && DistinctKeys(items')
    ensures Entries(Group(items, nibble)) == Entries(Group(items', nibble))
    ensures DistinctKeys(Group(items, nibble)) && DistinctKeys(Group(items', nibble))
  {
    GroupDistinct(items, nibble);
    GroupDistinct(items', nibble);
    forall x ensures x in Group(items, nibble) <==> x in Group(items', nibble) {
      GroupHolds(items, nibble, x);
      GroupHolds(items', nibble, x);
      assert Item([nibble] + x.key, x.value) in items <==> Item([nibble] + x.key, x.value) in Entries(items);
      assert Item([nibble] + x.key, x.value) in items' <==> Item([nibble] + x.key, x.value) in Entries(items');
    }
  }

  lemma TerminalOnSet(items: seq<Item>, items': seq<Item>)
    requires Entries(items) == Entries(items') && DistinctKeys(items) && DistinctKeys(items')
    ensures Terminal(items) == Terminal(items')
  {
    TerminalHolds(items);
    TerminalHolds(items');
    assert Item([], Terminal(items)) in items <==> Item([], Terminal(items)) in Entries(items);
    assert Item([], Terminal(items')) in items' <==> Item([], Terminal(items')) in Entries(items');
  }

  /** All keys share the first c nibbles p. */
  ghost predicate Prefixed(items: seq<Item>, p: Path) {
    forall i :: 0 <= i < |items| ==> |items[i].key| >= |p| && items[i].key[..|p|] == p
  }

  lemma DropHolds(items: seq<Item>, p: Path, x: Item)
    requires Prefixed(items, p)
    ensures x in Drop(items, |p|) <==> Item(p + x.key, x.value) in items
  {
    var r := Drop(items, |p|);
    if x in r {
      var i :| 0 <= i < |r| && r[i] == x;
      assert items[i].key == p + items[i].key[|p|..];
      assert items[i] == Item(p + x.key, x.value);
    }
    if Item(p + x.key, x.value) in items {
      var i :| 0 <= i < |items| && items[i] == Item(p + x.key, x.value);
      assert (p + x.key)[|p|..] == x.key;
      assert r[i] == x;
    }
  }

  lemma DropDistinct(items: seq<Item>, p: Path)
    requires Prefixed(items, p) && DistinctKeys(items)
    ensures DistinctKeys(Drop(items, |p|))
  {
    var r := Drop(items, |p|);
    forall i, j | 0 <= i < j < |items| ensures r[i].key != r[j].key {
      assert items[i].key == p + r[i].key && items[j].key == p + r[j].key;
    }
  }

  lemma DropsOnSet(items: seq<Item>, items': seq<Item>, p: Path)
    requires Prefixed(items, p) && Prefixed(items', p)
    ensures Entries(items) == Entries(items') <==> Entries(Drop(items, |p|)) == Entries(Drop(items', |p|))
  {
    var r, r' := Drop(items, |p|), Drop(items', |p|);
    if Entries(items) == Entries(items') {
      forall x ensures x in r <==> x in r' {
        DropHolds(items, p, x);
        DropHolds(items', p, x);
        assert Item(p + x.key, x.value) in items <==> Item(p + x.key, x.value) in Entries(items);
        assert Item(p + x.key, x.value) in items' <==> Item(p + x.key, x.value) in Entries(items');
      }
    }
    if Entries(r) == Entries(r') {
      LiftDrop(items, items', p);
      LiftDrop(items', items, p);
    }
  }

  lemma LiftDrop(items: seq<Item>, items': seq<Item>, p: Path)
    requires Prefixed(items, p) && Prefixed(items', p)
    requires Entries(Drop(items, |p|)) <= Entries(Drop(items', |p|))
    ensures Entries(items) <= Entries(items')
  {
    forall x | x in items ensures x in items' {
      var i :| 0 <= i < |items| && items[i] == x;
      assert x.key == p + x.key[|p|..];
      var cut := Item(x.key[|p|..], x.value);
      DropHolds(items, p, cut);
      DropHolds(items', p, cut);
      assert cut in Entries(Drop(items, |p|));
    }
  }

  lemma CommonPrefix(items: seq<Item>)
    requires items != [] && Common(items, 0) > 0
    ensures Prefixed(items, items[0].key[..Common(items, 0)])
    ensures TotalLength(Drop(items, Common(items, 0))) < TotalLength(items)
  {
    SharedPrefix(items, Common(items, 0));
  }

  /** The same items in any order give the same node. */
  lemma {:induction false} TrieIgnoresOrder(H: HashFn, items: seq<Item>, items': seq<Item>)
    requires items != [] && items' != [] && Entries(items) == Entries(items') && DistinctKeys(items) &&
        DistinctKeys(items')
    ensures TrieNode(H, items) == TrieNode(H, items')
    decreases TotalLength(items), 1
  {
    DistinctCount(items);
    DistinctCount(items');
    CommonOnSet(items, items');
    var common := Common(items, 0);
    if |items| == 1 {
      assert items[0] in Entries(items');
    } else if common > 0 {
      PrefixOnSet(items, items');
      var p := items[0].key[..common];
      DropsOnSet(items, items', p);
      DropDistinct(items, p);
      DropDistinct(items', p);
      TrieIgnoresOrder(H, Drop(items, common), Drop(items', common));
    } else {
      TerminalOnSet(items, items');
      forall nibble: nat | nibble < 16 ensures Slot(H, items, nibble) == Slot(H, items', nibble) {
        SlotIgnoresOrder(H, items, items', nibble);
      }
    }
  }

  lemma {:induction false} SlotIgnoresOrder(H: HashFn, items: seq<Item>, items': seq<Item>, nibble: Nibble)
    requires items != [] && items' != [] && Entries(items) == Entries(items') && DistinctKeys(items) &&
        DistinctKeys(items')
    ensures Slot(H, items, nibble) == Slot(H, items', nibble)
    decreases TotalLength(items), 0
  {
    GroupsOnSet(items, items', nibble);
    var g, g' := Group(items, nibble), Group(items', nibble);
    DistinctCount(g);
    DistinctCount(g');
    if g != [] {
      TrieIgnoresOrder(H, g, g');
    }
  }

  lemma PrefixOnSet(items: seq<Item>, items': seq<Item>)
    requires items != [] && items' != [] && Entries(items) == Entries(items') && Common(items, 0) > 0
    ensures Common(items', 0) == Common(items, 0)
    ensures var p := items[0].key[..Common(items, 0)];
            Prefixed(items, p) && Prefixed(items', p) && items'[0].key[..Common(items, 0)] == p
    ensures TotalLength(Drop(items, Common(items, 0))) < TotalLength(items)
  {
    CommonOnSet(items, items');
    CommonPrefix(items);
    CommonPrefix(items');
    assert items'[0] in Entries(items);
  }

  // ---------- Binding ----------

  /** A node that stands behind a reference: it fits the encoding, and it was hashed unless it is inline. */
  ghost predicate Referenced(node: seq<Node>, hashed: set<Bytes>) {
    Fits(List(node)) && (|Encode(List(node))| >= 32 ==> Encode(List(node)) in hashed)
  }

  /** Every reference below the node for these items. */
  ghost predicate Covered(H: HashFn, items: seq<Item>, hashed: set<Bytes>)
    requires items != []
    decreases TotalLength(items), 1
  {
    if |items| == 1 then true
    else
      var common := Common(items, 0);
      if common > 0 then
        CommonPrefix(items);
        var rest := Drop(items, common);
        Referenced(TrieNode(H, rest), hashed) && Covered(H, rest, hashed)
      else
        forall nibble: nat | nibble < 16 :: SlotCovered(H, items, nibble, hashed)
  }

  ghost predicate SlotCovered(H: HashFn, items: seq<Item>, nibble: nat, hashed: set<Bytes>)
    requires items != []
    decreases TotalLength(items), 0
  {
    var group := Group(items, nibble);
    group == [] || (Referenced(TrieNode(H, group), hashed) && Covered(H, group, hashed))
  }

  lemma NodeRefInjective(H: HashFn, x: seq<Node>, y: seq<Node>, hashed: set<Bytes>)
    requires CollisionFree(H, hashed) && Referenced(x, hashed) && Referenced(y, hashed)
    requires NodeRef(H, x) == NodeRef(H, y)
    ensures x == y
  {
    var a, b := Encode(List(x)), Encode(List(y));
    if |a| >= 32 && |b| >= 32 {
      WordInjective(H(a), H(b));
      EncodeInjective(List(x), List(y));
    }
  }

  ghost predicate NonEmptyValues(items: seq<Item>) {
    forall x :: x in items ==> x.value != []
  }

  lemma GroupKeepsValues(items: seq<Item>, nibble: Nibble)
    requires NonEmptyValues(items)
    ensures NonEmptyValues(Group(items, nibble))
  {
    forall x | x in Group(items, nibble) ensures x.value != [] {
      GroupHolds(items, nibble, x);
    }
  }

  lemma DropKeepsValues(items: seq<Item>, p: Path)
    requires NonEmptyValues(items) && Prefixed(items, p)
    ensures NonEmptyValues(Drop(items, |p|))
  {
    forall x | x in Drop(items, |p|) ensures x.value != [] {
      DropHolds(items, p, x);
    }
  }

  /** Items agree as sets when their branches and terminal values do. */
  lemma BranchesDetermineItems(items: seq<Item>, items': seq<Item>)
    requires DistinctKeys(items) && DistinctKeys(items') && NonEmptyValues(items) && NonEmptyValues(items')
    requires Terminal(items) == Terminal(items')
    requires forall nibble: Nibble :: Entries(Group(items, nibble)) == Entries(Group(items', nibble))
    ensures Entries(items) <= Entries(items')
  {
    TerminalHolds(items);
    TerminalHolds(items');
    forall x | x in items ensures x in items' {
      if x.key != [] {
        var nibble, cut := x.key[0], Item(x.key[1..], x.value);
        assert x.key == [nibble] + cut.key;
        GroupHolds(items, nibble, cut);
        GroupHolds(items', nibble, cut);
        assert cut in Entries(Group(items, nibble));
      }
    }
  }

  lemma LeafNeverExtends(H: HashFn, items: seq<Item>, items': seq<Item>)
    requires items != [] && items' != [] && TrieNode(H, items) == TrieNode(H, items')
    ensures |items| == 1 <==> |items'| == 1
    ensures |items| == 1 ==> items[0] == items'[0]
    ensures |items| > 1 ==> (Common(items, 0) > 0 <==> Common(items', 0) > 0)
    ensures |items| > 1 && Common(items, 0) > 0 ==>
              items[0].key[..Common(items, 0)] == items'[0].key[..Common(items', 0)]
  {
    var n, n' := TrieNode(H, items), TrieNode(H, items');
    var c, c' := Common(items, 0), Common(items', 0);
    if |n| == 2 {
      CompactPathInjective(if |items| == 1 then items[0].key else items[0].key[..c], |items| == 1,
                           if |items'| == 1 then items'[0].key else items'[0].key[..c'], |items'| == 1);
    }
  }

  /** Equal nodes come from equal sets of items: references are opened level by level. */
  lemma {:induction false} TrieBinds(H: HashFn, items: seq<Item>, items': seq<Item>, hashed: set<Bytes>)
    requires items != [] && items' != [] && DistinctKeys(items) && DistinctKeys(items')
    requires NonEmptyValues(items) && NonEmptyValues(items')
    requires CollisionFree(H, hashed) && Covered(H, items, hashed) && Covered(H, items', hashed)
    requires TrieNode(H, items) == TrieNode(H, items')
    ensures Entries(items) == Entries(items')
    decreases TotalLength(items), 1
  {
    LeafNeverExtends(H, items, items');
    if |items| > 1 && Common(items, 0) > 0 {
      CommonPrefix(items);
      CommonPrefix(items');
      var p := items[0].key[..Common(items, 0)];
      var rest, rest' := Drop(items, |p|), Drop(items', |p|);
      assert TrieNode(H, items)[1] == TrieNode(H, items')[1];
      NodeRefInjective(H, TrieNode(H, rest), TrieNode(H, rest'), hashed);
      DropDistinct(items, p);
      DropDistinct(items', p);
      DropKeepsValues(items, p);
      DropKeepsValues(items', p);
      TrieBinds(H, rest, rest', hashed);
      DropsOnSet(items, items', p);
    } else if |items| > 1 {
      forall nibble: Nibble ensures Entries(Group(items, nibble)) == Entries(Group(items', nibble)) {
        assert TrieNode(H, items)[nibble] == Slot(H, items, nibble);
        assert TrieNode(H, items')[nibble] == Slot(H, items', nibble);
        assert SlotCovered(H, items, nibble, hashed) && SlotCovered(H, items', nibble, hashed);
        SlotBinds(H, items, items', nibble, hashed);
      }
      assert TrieNode(H, items)[16] == Str(Terminal(items)) && TrieNode(H, items')[16] == Str(Terminal(items'));
      BranchesDetermineItems(items, items');
      BranchesDetermineItems(items', items);
    }
  }

  lemma {:induction false} SlotBinds(H: HashFn, items: seq<Item>, items': seq<Item>, nibble: Nibble, hashed: set<Bytes>)
    requires items != [] && items' != [] && DistinctKeys(items) && DistinctKeys(items')
    requires NonEmptyValues(items) && NonEmptyValues(items')
    requires CollisionFree(H, hashed) && SlotCovered(H, items, nibble, hashed) && SlotCovered(H, items', nibble, hashed)
    requires Slot(H, items, nibble) == Slot(H, items', nibble)
    ensures Entries(Group(items, nibble)) == Entries(Group(items', nibble))
    decreases TotalLength(items), 0
  {
    var g, g' := Group(items, nibble), Group(items', nibble);
    if g != [] && g' != [] {
      NodeRefInjective(H, TrieNode(H, g), TrieNode(H, g'), hashed);
      GroupDistinct(items, nibble);
      GroupDistinct(items', nibble);
      GroupKeepsValues(items, nibble);
      GroupKeepsValues(items', nibble);
      TrieBinds(H, g, g', hashed);
    }
  }

  // ---------- Receipts ----------

  datatype Log = Log(address: Bytes, topics: seq<Bytes>, data: Bytes)

  /** Fields of a receipt as the source node reports them. */
  datatype Receipt = Receipt(kind: int, status: Option<int>, cumulativeGasUsed: int, logsBloom: Bytes,
      root: Option<Bytes>, logs: seq<Log>)

  datatype Indexed = Indexed(index: nat, receipt: Receipt)

  predicate Verifiable(r: Receipt) {
    0 <= r.kind <= 0x7f && r.cumulativeGasUsed >= 0 && |r.logsBloom| == 256 && r.status in [Some(0), Some(1)] &&
        r.root.None?
  }

  function TopicNodes(topics: seq<Bytes>): (r: seq<Node>)
    ensures |r| == |topics|
  {
    seq(|topics|, i requires 0 <= i < |topics| => Str(topics[i]))
  }

  function LogNode(log: Log): Node {
    List([Str(log.address), List(TopicNodes(log.topics)), Str(log.data)])
  }

  function LogNodes(logs: seq<Log>): (r: seq<Node>)
    ensures |r| == |logs|
  {
    seq(|logs|, i requires 0 <= i < |logs| => LogNode(logs[i]))
  }

  function PayloadNode(r: Receipt): Node
    requires Verifiable(r)
  {
    List([Str(Minimal(r.status.value)), Str(Minimal(r.cumulativeGasUsed)), Str(r.logsBloom), List(LogNodes(r.logs))])
  }

  /** Legacy receipts are the bare list; typed ones carry their type byte in front. */
  function EncodedReceipt(r: Receipt): Option<Bytes> {
    if !Verifiable(r) then None
    else
      var payload := Encode(PayloadNode(r));
      Some(if r.kind == 0 then payload else [r.kind] + payload)
  }

  function IndexKey(index: nat): Path {
    Nibbles(Encode(Str(Minimal(index))))
  }

  function ItemsOf(receipts: seq<Indexed>): (r: seq<Item>)
    requires forall x :: x in receipts ==> Verifiable(x.receipt)
    ensures |r| == |receipts|
  {
    seq(|receipts|, i requires 0 <= i < |receipts| =>
      assert receipts[i] in receipts;
      Item(IndexKey(receipts[i].index), EncodedReceipt(receipts[i].receipt).value))
  }

  function ComputeReceiptsRoot(H: HashFn, receipts: seq<Indexed>): Option<Word256> {
    if receipts == [] then Some(H(Encode(Str([]))))
    else if exists x :: x in receipts && !Verifiable(x.receipt) then None
    else Some(H(Encode(List(TrieNode(H, ItemsOf(receipts))))))
  }

  lemma {:induction false} AllFitAt(items: seq<Node>, i: nat)
    requires AllFit(items) && i < |items|
    ensures Fits(items[i])
  {
    if i > 0 {
      AllFitAt(items[1..], i - 1);
    }
  }

  lemma LogNodeInjective(x: Log, y: Log)
    requires LogNode(x) == LogNode(y)
    ensures x == y
  {
    assert LogNode(x).items[0] == LogNode(y).items[0] && LogNode(x).items[1] == LogNode(y).items[1] &&
        LogNode(x).items[2] == LogNode(y).items[2];
    var s, t := TopicNodes(x.topics), TopicNodes(y.topics);
    assert s == t;
    forall i | 0 <= i < |s| ensures x.topics[i] == y.topics[i] {
      assert s[i] == t[i];
    }
  }

  lemma PayloadNodeInjective(x: Receipt, y: Receipt)
    requires Verifiable(x) && Verifiable(y) && PayloadNode(x) == PayloadNode(y)
    ensures x.(kind := 0) == y.(kind := 0)
  {
    var p, q := PayloadNode(x).items, PayloadNode(y).items;
    assert p[0] == q[0] && p[1] == q[1] && p[2] == q[2] && p[3] == q[3];
    MinimalInjective(x.status.value, y.status.value);
    MinimalInjective(x.cumulativeGasUsed, y.cumulativeGasUsed);
    var s, t := LogNodes(x.logs), LogNodes(y.logs);
    assert s == t;
    forall i | 0 <= i < |s| ensures x.logs[i] == y.logs[i] {
      assert s[i] == t[i];
      LogNodeInjective(x.logs[i], y.logs[i]);
    }
  }

  /** The encoding keeps type, status, cumulative gas, bloom and every log field. */
  lemma EncodedReceiptInjective(x: Receipt, y: Receipt)
    requires Verifiable(x) && Verifiable(y) && Fits(PayloadNode(x)) && Fits(PayloadNode(y))
    requires EncodedReceipt(x) == EncodedReceipt(y)
    ensures x == y
  {
    var p, q := Encode(PayloadNode(x)), Encode(PayloadNode(y));
    EncodeShape(PayloadNode(x));
    EncodeShape(PayloadNode(y));
    var a, b := EncodedReceipt(x).value, EncodedReceipt(y).value;
    assert a[0] == b[0];
    assert x.kind == y.kind;
    if x.kind != 0 {
      assert a[1..] == p && b[1..] == q;
    }
    EncodeInjective(PayloadNode(x), PayloadNode(y));
    PayloadNodeInjective(x, y);
  }

  /** Index keys are distinct for distinct transaction indices. */
  lemma IndexKeyInjective(i: nat, j: nat)
    requires i < Pow256(7) && j < Pow256(7) && IndexKey(i) == IndexKey(j)
    ensures i == j
  {
    NibblesInjective(Encode(Str(Minimal(i))), Encode(Str(Minimal(j))));
    MinimalLength(i, 7);
    MinimalLength(j, 7);
    EncodeInjective(Str(Minimal(i)), Str(Minimal(j)));
    MinimalInjective(i, j);
  }

  /** Distinct safe indices, verifiable receipts, payloads within the encoding's range. */
  ghost predicate Encodable(receipts: seq<Indexed>) {
    && (forall x :: x in receipts ==> Verifiable(x.receipt) && Fits(PayloadNode(x.receipt)) && x.index < Pow256(7))
    && (forall i, j :: 0 <= i < j < |receipts| ==> receipts[i].index != receipts[j].index)
  }

  lemma ItemsAreDistinct(receipts: seq<Indexed>)
    requires Encodable(receipts)
    ensures DistinctKeys(ItemsOf(receipts)) && NonEmptyValues(ItemsOf(receipts))
  {
    var items := ItemsOf(receipts);
    forall i, j | 0 <= i < j < |items| ensures items[i].key != items[j].key {
      assert receipts[i] in receipts && receipts[j] in receipts;
      if items[i].key == items[j].key {
        IndexKeyInjective(receipts[i].index, receipts[j].index);
      }
    }
    forall x | x in items ensures x.value != [] {
      var i :| 0 <= i < |items| && items[i] == x;
      assert receipts[i] in receipts;
      EncodeShape(PayloadNode(receipts[i].receipt));
    }
  }

  ghost function Listed(receipts: seq<Indexed>): set<Indexed> {
    set x | x in receipts
  }

  lemma ItemsDetermineReceipts(receipts: seq<Indexed>, receipts': seq<Indexed>)
    requires Encodable(receipts) && Encodable(receipts')
    requires Entries(ItemsOf(receipts)) <= Entries(ItemsOf(receipts'))
    ensures Listed(receipts) <= Listed(receipts')
  {
    forall x | x in receipts ensures x in receipts' {
      var i :| 0 <= i < |receipts| && receipts[i] == x;
      var item := ItemsOf(receipts)[i];
      assert item in Entries(ItemsOf(receipts'));
      var j :| 0 <= j < |receipts'| && ItemsOf(receipts')[j] == item;
      var y := receipts'[j];
      assert y in receipts';
      IndexKeyInjective(x.index, y.index);
      EncodedReceiptInjective(x.receipt, y.receipt);
    }
  }

  /** The order in which receipts are handed over does not matter. */
  lemma RootIgnoresReceiptOrder(H: HashFn, receipts: seq<Indexed>, receipts': seq<Indexed>)
    requires Encodable(receipts) && Encodable(receipts') && Listed(receipts) == Listed(receipts')
    ensures ComputeReceiptsRoot(H, receipts) == ComputeReceiptsRoot(H, receipts')
  {
    assert receipts == [] <==>
        Listed(receipts) == {} by { if receipts != [] { assert receipts[0] in Listed(receipts); } }
    assert receipts' == [] <==>
        Listed(receipts') == {} by { if receipts' != [] { assert receipts'[0] in Listed(receipts'); } }
    if receipts != [] {
      ItemsAreDistinct(receipts);
      ItemsAreDistinct(receipts');
      ItemsFollowReceipts(receipts, receipts');
      ItemsFollowReceipts(receipts', receipts);
      TrieIgnoresOrder(H, ItemsOf(receipts), ItemsOf(receipts'));
    }
  }

  lemma ItemsFollowReceipts(receipts: seq<Indexed>, receipts': seq<Indexed>)
    requires Encodable(receipts) && Encodable(receipts') && Listed(receipts) <= Listed(receipts')
    ensures Entries(ItemsOf(receipts)) <= Entries(ItemsOf(receipts'))
  {
    var items, items' := ItemsOf(receipts), ItemsOf(receipts');
    forall item | item in items ensures item in items' {
      var i :| 0 <= i < |items| && items[i] == item;
      assert receipts[i] in Listed(receipts');
      var j :| 0 <= j < |receipts'| && receipts'[j] == receipts[i];
      assert items'[j] == item;
    }
  }

  /** Strings hashed for one receipts root. */
  ghost predicate RootCovered(H: HashFn, receipts: seq<Indexed>, hashed: set<Bytes>)
    requires Encodable(receipts)
  {
    if receipts == [] then Encode(Str([])) in hashed
    else
      var node := TrieNode(H, ItemsOf(receipts));
      Fits(List(node)) && Encode(List(node)) in hashed && Covered(H, ItemsOf(receipts), hashed)
  }

  /** Without a collision among the strings hashed, equal roots come from equal receipts. */
  lemma ReceiptsRootBinds(H: HashFn, receipts: seq<Indexed>, receipts': seq<Indexed>, hashed: set<Bytes>)
    requires Encodable(receipts) && Encodable(receipts') && CollisionFree(H, hashed)
    requires RootCovered(H, receipts, hashed) && RootCovered(H, receipts', hashed)
    requires ComputeReceiptsRoot(H, receipts) == ComputeReceiptsRoot(H, receipts')
    ensures Listed(receipts) == Listed(receipts')
  {
    EmptyEncoding();
    if receipts != [] && receipts' != [] {
      var items, items' := ItemsOf(receipts), ItemsOf(receipts');
      EncodeInjective(List(TrieNode(H, items)), List(TrieNode(H, items')));
      ItemsAreDistinct(receipts);
      ItemsAreDistinct(receipts');
      TrieBinds(H, items, items', hashed);
      ItemsDetermineReceipts(receipts, receipts');
      ItemsDetermineReceipts(receipts', receipts);
    } else if receipts != [] {
      EncodeShape(List(TrieNode(H, ItemsOf(receipts))));
    } else if receipts' != [] {
      EncodeShape(List(TrieNode(H, ItemsOf(receipts'))));
    }
  }

  lemma EmptyEncoding()
    ensures Encode(Str([])) == [0x80]
  {
  }

  /** Receipts numbered 0..n-1, as one block delivers them. */
  function Numbered(rs: seq<Receipt>): (r: seq<Indexed>)
    ensures |r| == |rs|
  {
    seq(|rs|, i requires 0 <= i < |rs| => Indexed(i, rs[i]))
  }

  /** A block's receipts root determines how many receipts there are and each one in its place. */
  lemma BlockReceiptsAreBound(H: HashFn, rs: seq<Receipt>, rs': seq<Receipt>, hashed: set<Bytes>)
    requires Encodable(Numbered(rs)) && Encodable(Numbered(rs')) && CollisionFree(H, hashed)
    requires RootCovered(H, Numbered(rs), hashed) && RootCovered(H, Numbered(rs'), hashed)
    requires ComputeReceiptsRoot(H, Numbered(rs)) == ComputeReceiptsRoot(H, Numbered(rs'))
    ensures rs == rs'
  {
    ReceiptsRootBinds(H, Numbered(rs), Numbered(rs'), hashed);
    NumberedPrefix(rs, rs');
    NumberedPrefix(rs', rs);
  }

  lemma NumberedPrefix(rs: seq<Receipt>, rs': seq<Receipt>)
    requires Listed(Numbered(rs)) == Listed(Numbered(rs'))
    ensures |rs| <= |rs'| && forall i :: 0 <= i < |rs| ==> rs[i] == rs'[i]
  {
    forall i | 0 <= i < |rs| ensures i < |rs'| && rs[i] == rs'[i] {
      assert Numbered(rs)[i] in Listed(Numbered(rs'));
    }
    if rs != [] {
      assert Numbered(rs)[|rs| - 1] in Listed(Numbered(rs'));
    }
  }
}
