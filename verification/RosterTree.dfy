/**
 * The positional sorted-key roster tree: construction, proofs and their verification
 * (pipeline/roster.ts).
 */
module RosterTree {
  import opened Prelude
  import opened Sorting
  import opened Hashing

  type Key = Word256

  datatype RosterEntry = RosterEntry(subject: Address, attrs: Word256, claimsRoot: Word256, evidenceHash: Word256,
      issuer: Address)

  /** Everything the verifier and the builder hash with; the namespace is fixed per deployment. */
  datatype Scheme = Scheme(H: HashFn, namespace: Bytes)

  datatype Tree = Tree(
    entries: seq<RosterEntry>,
    keys: seq<Key>,
    marks: seq<Word256>,
    leaves: seq<Word256>,
    layers: seq<seq<Word256>>,
    root: Word256)

  datatype Proof = Proof(index: int, leafCount: int, siblings: seq<Word256>)

  /** Keys arrive as text; a malformed one is `None`. */
  datatype GapProof = GapProof(left: Proof, leftKey: Option<Key>, leftMark: Word256, right: Proof,
      rightKey: Option<Key>, rightMark: Word256)

  const MIN_KEY: Key := 0
  const MAX_KEY: Key := WORD_LIMIT - 1
  const SENTINEL_MARK: Word256 := 0
  const MAX_SIBLINGS := 256

  // ---------- Preimages ----------

  function NamespaceTail(s: Scheme): Bytes {
    Word(|s.namespace|) + s.namespace + Zeros((32 - |s.namespace| % 32) % 32)
  }

  /** Standard ABI encoding of (string, address). */
  function SubjectPreimage(s: Scheme, subject: Address): Bytes {
    Word(64) + Word(subject) + NamespaceTail(s)
  }

  function MarkPreimage(e: RosterEntry): Bytes {
    Word(e.attrs) + Word(e.claimsRoot) + Word(e.evidenceHash) + Word(e.issuer)
  }

  function Tagged(tag: Byte, x: nat, y: nat): Bytes {
    [tag] + Word(x) + Word(y)
  }

  lemma TaggedInjective(tag: Byte, x: Word256, y: Word256, tag': Byte, x': Word256, y': Word256)
    requires Tagged(tag, x, y) == Tagged(tag', x', y')
    ensures tag == tag' && x == x' && y == y'
  {
    SplitEqual([tag] + Word(x), Word(y), [tag'] + Word(x'), Word(y'));
    SplitEqual([tag], Word(x), [tag'], Word(x'));
    WordInjective(x, x');
    WordInjective(y, y');
  }

  function SubjectKey(s: Scheme, subject: Address): Key {
    s.H(SubjectPreimage(s, subject))
  }

  function MarkHash(s: Scheme, e: RosterEntry): Word256 {
    s.H(MarkPreimage(e))
  }

  function LeafOf(s: Scheme, key: Key, mark: Word256): Word256 {
    s.H(Tagged(0, key, mark))
  }

  function HashNode(s: Scheme, left: Word256, right: Word256): Word256 {
    s.H(Tagged(1, left, right))
  }

  function RosterRoot(s: Scheme, treeRoot: Word256, leafCount: int): Option<Word256> {
    if !(2 <= leafCount <= MAX_SAFE_INTEGER) then None else Some(s.H(Tagged(2, leafCount, treeRoot)))
  }

  // ---------- The tree as a function of its leaves ----------

  /** The next layer: neighbours hashed in position, an odd tail with itself. */
  function Parents(s: Scheme, layer: seq<Word256>): (r: seq<Word256>)
    ensures |r| == (|layer| + 1) / 2
  {
    seq((|layer| + 1) / 2, i requires 0 <= i < (|layer| + 1) / 2 => Parent(s, layer, i))
  }

  function Parent(s: Scheme, layer: seq<Word256>, i: nat): Word256
    requires 2 * i < |layer|
  {
    HashNode(s, layer[2 * i], if 2 * i + 1 < |layer| then layer[2 * i + 1] else layer[2 * i])
  }

  function Layers(s: Scheme, layer: seq<Word256>): (r: seq<seq<Word256>>)
    requires layer != []
    ensures r != [] && r[0] == layer
    decreases |layer|
  {
    if |layer| == 1 then [layer] else [layer] + Layers(s, Parents(s, layer))
  }

  function Top(s: Scheme, layer: seq<Word256>): Word256
    requires layer != []
    decreases |layer|
  {
    if |layer| == 1 then layer[0] else Top(s, Parents(s, layer))
  }

  function Depth(width: nat): nat {
    if width <= 1 then 0 else 1 + Depth((width + 1) / 2)
  }

  lemma {:induction false} DepthBound(width: nat, k: nat)
    requires width <= Power2(k)
    ensures Depth(width) <= k
  {
    if width > 1 {
      if k == 0 { assert false; }
      DepthBound((width + 1) / 2, k - 1);
    }
  }

  function Power2(k: nat): nat {
    if k == 0 then 1 else 2 * Power2(k - 1)
  }

  lemma SafeDepth(width: nat)
    requires width <= MAX_SAFE_INTEGER
    ensures Depth(width) <= 53
  {
    assert Power2(8) == 0x100;
    assert Power2(16) == 0x1_0000;
    assert Power2(24) == 0x100_0000;
    assert Power2(32) == 0x1_0000_0000;
    assert Power2(40) == 0x100_0000_0000;
    assert Power2(48) == 0x1_0000_0000_0000;
    assert Power2(53) == MAX_SAFE_INTEGER + 1;
    DepthBound(width, 53);
  }

  // ---------- Proof generation and verification, as functions ----------

  function Sibling(layer: seq<Word256>, idx: nat): Word256
    requires idx < |layer|
  {
    var pair := if idx % 2 == 0 then idx + 1 else idx - 1;
    if pair < |layer| then layer[pair] else layer[idx]
  }

  function Siblings(s: Scheme, layer: seq<Word256>, idx: nat): (r: seq<Word256>)
    requires idx < |layer|
    ensures |r| == Depth(|layer|)
    decreases |layer|
  {
    if |layer| == 1 then [] else [Sibling(layer, idx)] + Siblings(s, Parents(s, layer), idx / 2)
  }

  function Join(s: Scheme, acc: Word256, idx: nat, sibling: Word256): Word256 {
    if idx % 2 == 0 then HashNode(s, acc, sibling) else HashNode(s, sibling, acc)
  }

  function PairIndex(idx: nat): int {
    if idx % 2 == 0 then idx + 1 else idx - 1
  }

  /** Value reached from a leaf by its siblings, or None when the shape is refused. */
  function Climb(s: Scheme, acc: Word256, idx: nat, width: nat, siblings: seq<Word256>): Option<Word256>
    decreases |siblings|
  {
    if siblings == [] then
      if width == 1 && idx == 0 then Some(acc) else None
    else if width <= 1 || (PairIndex(idx) >= width && siblings[0] != acc) then None
    else Climb(s, Join(s, acc, idx, siblings[0]), idx / 2, (width + 1) / 2, siblings[1..])
  }

  predicate WellFormed(p: Proof) {
    0 <= p.index < p.leafCount && 2 <= p.leafCount <= MAX_SAFE_INTEGER && |p.siblings| <= MAX_SIBLINGS
  }

  predicate Accepts(s: Scheme, root: Word256, leaf: Word256, p: Proof) {
    WellFormed(p)
    && var top := Climb(s, leaf, p.index, p.leafCount, p.siblings);
       top.Some? && RosterRoot(s, top.value, p.leafCount) == Some(root)
  }

  predicate AcceptsGap(s: Scheme, root: Word256, target: Address, p: GapProof) {
    var tk := SubjectKey(s, target);
    && p.leftKey.Some? && p.rightKey.Some?
    && p.leftKey.value < tk < p.rightKey.value
    && p.right.index == p.left.index + 1
    && p.left.leafCount == p.right.leafCount && |p.left.siblings| == |p.right.siblings|
    && Accepts(s, root, LeafOf(s, p.leftKey.value, p.leftMark), p.left)
    && Accepts(s, root, LeafOf(s, p.rightKey.value, p.rightMark), p.right)
  }

  method VerifyInclusion(s: Scheme, root: Word256, leaf: Word256, p: Proof) returns (ok: bool)
    ensures ok == Accepts(s, root, leaf, p)
  {
    if p.index > MAX_SAFE_INTEGER || p.leafCount > MAX_SAFE_INTEGER || p.leafCount < 2 || p.index < 0
       || p.index >= p.leafCount || |p.siblings| > MAX_SIBLINGS {
      return false;
    }
    var acc: Word256 := leaf;
    var idx, width := p.index, p.leafCount;
    for i := 0 to |p.siblings|
      invariant 0 <= idx && 0 <= width
      invariant Climb(s, leaf, p.index, p.leafCount, p.siblings) == Climb(s, acc, idx, width, p.siblings[i..])
    {
      var sibling := p.siblings[i];
      assert p.siblings[i..][1..] == p.siblings[i + 1..];
      if width <= 1 {
        return false;
      }
      var pair := if idx % 2 == 0 then idx + 1 else idx - 1;
      if pair >= width && sibling != acc {
        return false;
      }
      acc := if idx % 2 == 0 then HashNode(s, acc, sibling) else HashNode(s, sibling, acc);
      idx, width := idx / 2, (width + 1) / 2;
    }
    return width == 1 && idx == 0 && RosterRoot(s, acc, p.leafCount) == Some(root);
  }

  method VerifyNonInclusion(s: Scheme, root: Word256, target: Address, p: GapProof) returns (ok: bool)
    ensures ok == AcceptsGap(s, root, target, p)
  {
    var tk := SubjectKey(s, target);
    if p.leftKey.None? || p.rightKey.None? {
      return false;
    }
    var leftKey: Key, rightKey: Key := p.leftKey.value, p.rightKey.value;
    if !(leftKey < tk && tk < rightKey) {
      return false;
    }
    if p.right.index != p.left.index + 1 {
      return false;
    }
    if p.left.leafCount != p.right.leafCount || |p.left.siblings| != |p.right.siblings| {
      return false;
    }
    ok := VerifyInclusion(s, root, LeafOf(s, leftKey, p.leftMark), p.left);
    if ok {
      ok := VerifyInclusion(s, root, LeafOf(s, rightKey, p.rightMark), p.right);
    }
  }

  // ---------- Building ----------

  datatype Keyed = Keyed(k: Key, e: RosterEntry)

  function KeyColumn(s: seq<Keyed>): seq<Key> {
    seq(|s|, i requires 0 <= i < |s| => s[i].k)
  }

  function EntryColumn(s: seq<Keyed>): seq<RosterEntry> {
    seq(|s|, i requires 0 <= i < |s| => s[i].e)
  }

  function ByKey(): (Keyed, Keyed) -> bool {
    (x: Keyed, y: Keyed) => x.k <= y.k
  }

  /** The library sort by key. */
  function SortByKey(s: seq<Keyed>): seq<Keyed> {
    SortedBy(s, ByKey())
  }

  lemma SortPermutes(s: seq<Keyed>)
    ensures multiset(KeyColumn(SortByKey(s))) == multiset(KeyColumn(s))
    ensures multiset(EntryColumn(SortByKey(s))) == multiset(EntryColumn(s))
  {
    var key, entry := (x: Keyed) => x.k, (x: Keyed) => x.e;
    MappedPermutes(key, s, SortByKey(s));
    MappedPermutes(entry, s, SortByKey(s));
    assert forall t: seq<Keyed> :: KeyColumn(t) == Mapped(key, t) && EntryColumn(t) == Mapped(entry, t);
  }

  ghost predicate StrictlySorted(s: seq<Key>) {
    forall i, j :: 0 <= i < j < |s| ==> s[i] < s[j]
  }

  function KeysOf(s: Scheme, entries: seq<RosterEntry>): (r: seq<Key>)
    ensures |r| == |entries|
  {
    seq(|entries|, i requires 0 <= i < |entries| => SubjectKey(s, entries[i].subject))
  }

  function MarksOf(s: Scheme, entries: seq<RosterEntry>): (r: seq<Word256>)
    ensures |r| == |entries|
  {
    seq(|entries|, i requires 0 <= i < |entries| => MarkHash(s, entries[i]))
  }

  function LeavesOf(s: Scheme, keys: seq<Key>, marks: seq<Word256>): (r: seq<Word256>)
    requires |keys| == |marks|
    ensures |r| == |keys|
  {
    seq(|keys|, i requires 0 <= i < |keys| => LeafOf(s, keys[i], marks[i]))
  }

  /** What a built tree is, relative to the entries it was built from. */
  ghost predicate BuiltFrom(s: Scheme, entries: seq<RosterEntry>, t: Tree) {
    && multiset(t.entries) == multiset(entries)
    && t.keys == [MIN_KEY] + KeysOf(s, t.entries) + [MAX_KEY]
    && StrictlySorted(t.keys)
    && t.marks == [SENTINEL_MARK] + MarksOf(s, t.entries) + [SENTINEL_MARK]
    && t.leaves == LeavesOf(s, t.keys, t.marks)
    && t.layers == Layers(s, t.leaves)
    && RosterRoot(s, Top(s, t.leaves), |t.leaves|) == Some(t.root)
  }

  /** No subject twice and no key on a sentinel. */
  ghost predicate DistinctSubjects(s: Scheme, entries: seq<RosterEntry>) {
    && (forall k :: multiset(KeysOf(s, entries))[k] <= 1)
    && MIN_KEY !in KeysOf(s, entries) && MAX_KEY !in KeysOf(s, entries)
  }

  ghost predicate Buildable(s: Scheme, entries: seq<RosterEntry>) {
    DistinctSubjects(s, entries) && |entries| + 2 <= MAX_SAFE_INTEGER
  }

  lemma RepeatCountsTwice(ks: seq<Key>, i: nat, j: nat)
    requires i < j < |ks| && ks[i] == ks[j]
    ensures multiset(ks)[ks[i]] >= 2
  {
    assert ks == ks[..j] + [ks[j]] + ks[j + 1..];
    assert ks[i] in ks[..j];
  }

  lemma {:induction false} StrictCountsOnce(ks: seq<Key>, k: Key)
    requires StrictlySorted(ks)
    ensures multiset(ks)[k] <= 1
  {
    if ks != [] {
      var n := |ks| - 1;
      assert ks == ks[..n] + [ks[n]];
      StrictCountsOnce(ks[..n], k);
      assert ks[n] !in ks[..n];
    }
  }

  method BuildLayers(s: Scheme, leaves: seq<Word256>) returns (layers: seq<seq<Word256>>)
    requires leaves != []
    ensures layers == Layers(s, leaves)
  {
    layers := [leaves];
    var cur := leaves;
    while |cur| > 1
      invariant cur != [] && layers != [] && layers[|layers| - 1] == cur
      invariant Layers(s, leaves) == layers[..|layers| - 1] + Layers(s, cur)
    {
      var next: seq<Word256> := [];
      var i := 0;
      while i < |cur|
        invariant i == 2 * |next| && |next| <= (|cur| + 1) / 2
        invariant forall j :: 0 <= j < |next| ==> next[j] == Parent(s, cur, j)
      {
        next := next + [HashNode(s, cur[i], if i + 1 < |cur| then cur[i + 1] else cur[i])];
        i := i + 2;
      }
      assert next == Parents(s, cur);
      LayersStep(s, layers, cur);
      layers, cur := layers + [next], next;
    }
  }

  lemma LayersStep(s: Scheme, layers: seq<seq<Word256>>, cur: seq<Word256>)
    requires layers != [] && layers[|layers| - 1] == cur && |cur| > 1
    ensures var more := layers + [Parents(s, cur)];
            layers[..|layers| - 1] + Layers(s, cur) == more[..|more| - 1] + Layers(s, Parents(s, cur))
  {
    assert layers == layers[..|layers| - 1] + [cur];
    assert (layers + [Parents(s, cur)])[..|layers|] == layers;
  }

  lemma {:induction false} LastLayerIsTop(s: Scheme, layer: seq<Word256>)
    requires layer != []
    ensures var layers := Layers(s, layer); layers[|layers| - 1] == [Top(s, layer)]
    decreases |layer|
  {
    if |layer| > 1 {
      LastLayerIsTop(s, Parents(s, layer));
    }
  }

  /** The two guards on the sorted keys, in the program's order; empty when both pass. */
  method CheckKeys(ks: seq<Key>) returns (fault: string)
    ensures fault == "" ==> (forall j :: 1 <= j < |ks| ==> ks[j] != ks[j - 1]) && MIN_KEY !in ks && MAX_KEY !in ks
    ensures fault != "" ==> (exists j :: 1 <= j < |ks| && ks[j] == ks[j - 1]) || MIN_KEY in ks || MAX_KEY in ks
  {
    var i := 1;
    while i < |ks|
      invariant 1 <= i
      invariant forall j :: 1 <= j < i && j < |ks| ==> ks[j] != ks[j - 1]
    {
      if ks[i] == ks[i - 1] {
        return "duplicate subject";
      }
      i := i + 1;
    }
    for k := 0 to |ks|
      invariant forall j :: 0 <= j < k ==> ks[j] != MIN_KEY && ks[j] != MAX_KEY
    {
      if ks[k] == MIN_KEY || ks[k] == MAX_KEY {
        return "sentinel collision";
      }
    }
    return "";
  }

  function WithKeys(s: Scheme, entries: seq<RosterEntry>): seq<Keyed> {
    seq(|entries|, i requires 0 <= i < |entries| => Keyed(SubjectKey(s, entries[i].subject), entries[i]))
  }

  lemma SortedColumns(s: Scheme, entries: seq<RosterEntry>)
    ensures var sorted := SortByKey(WithKeys(s, entries)); var ks := KeyColumn(sorted);
            && multiset(ks) == multiset(KeysOf(s, entries))
            && multiset(EntryColumn(sorted)) == multiset(entries)
            && ks == KeysOf(s, EntryColumn(sorted))
            && forall i, j :: 0 <= i < j < |ks| ==> ks[i] <= ks[j]
  {
    var withKeys := WithKeys(s, entries);
    assert KeyColumn(withKeys) == KeysOf(s, entries) && EntryColumn(withKeys) == entries;
    SortedByIsSorted(withKeys, ByKey());
    SortPermutes(withKeys);
    var sorted := SortByKey(withKeys);
    forall i | 0 <= i < |sorted| ensures sorted[i].k == SubjectKey(s, sorted[i].e.subject) {
      assert sorted[i] in withKeys;
    }
    forall i, j | 0 <= i < j < |sorted| ensures sorted[i].k <= sorted[j].k {
      assert ByKey()(sorted[i], sorted[j]);
    }
  }

  lemma RepeatIsNotDistinct(s: Scheme, entries: seq<RosterEntry>, ks: seq<Key>)
    requires multiset(ks) == multiset(KeysOf(s, entries))
    requires (exists j :: 1 <= j < |ks| && ks[j] == ks[j - 1]) || MIN_KEY in ks || MAX_KEY in ks
    ensures !DistinctSubjects(s, entries)
  {
    var all := KeysOf(s, entries);
    SameSize(ks, all);
    if MIN_KEY !in all && MAX_KEY !in all {
      var j :| 1 <= j < |ks| && ks[j] == ks[j - 1];
      RepeatCountsTwice(ks, j - 1, j);
    }
  }

  lemma StrictIsDistinct(s: Scheme, entries: seq<RosterEntry>, ks: seq<Key>)
    requires multiset(ks) == multiset(KeysOf(s, entries))
    requires StrictlySorted(ks) && MIN_KEY !in ks && MAX_KEY !in ks
    ensures DistinctSubjects(s, entries)
  {
    SameSize(ks, KeysOf(s, entries));
    forall k ensures multiset(ks)[k] <= 1 {
      StrictCountsOnce(ks, k);
    }
  }

  method SortEntries(s: Scheme, entries: seq<RosterEntry>) returns (r: Result<seq<RosterEntry>, string>)
    ensures r.Ok? <==> DistinctSubjects(s, entries)
    ensures r.Ok? ==>
              multiset(r.value) == multiset(entries) && StrictlySorted([MIN_KEY] + KeysOf(s, r.value) + [MAX_KEY])
  {
    var sorted := SortByKey(WithKeys(s, entries));
    SortedColumns(s, entries);
    var ks := KeyColumn(sorted);
    var fault := CheckKeys(ks);
    if fault != "" {
      RepeatIsNotDistinct(s, entries, ks);
      return Err(fault);
    }
    KeysAreStrict(ks);
    StrictIsDistinct(s, entries, ks);
    return Ok(EntryColumn(sorted));
  }

  method BuildRoster(s: Scheme, entries: seq<RosterEntry>) returns (r: Result<Tree, string>)
    ensures r.Ok? <==> Buildable(s, entries)
    ensures r.Ok? ==> BuiltFrom(s, entries, r.value)
  {
    var sorted := SortEntries(s, entries);
    if sorted.Err? {
      return Err(sorted.error);
    }
    var es := sorted.value;
    assert |es| == |entries| by {
      assert |multiset(es)| == |multiset(entries)|;
    }
    var keys := [MIN_KEY] + KeysOf(s, es) + [MAX_KEY];
    var marks := [SENTINEL_MARK] + MarksOf(s, es) + [SENTINEL_MARK];
    var leaves := LeavesOf(s, keys, marks);
    var layers := BuildLayers(s, leaves);
    LastLayerIsTop(s, leaves);
    var root := RosterRoot(s, layers[|layers| - 1][0], |leaves|);
    if root.None? {
      return Err("invalid roster leaf count");
    }
    return Ok(Tree(es, keys, marks, leaves, layers, root.value));
  }

  lemma SameSize(a: seq<Key>, b: seq<Key>)
    requires multiset(a) == multiset(b)
    ensures |a| == |b|
    ensures forall k :: k in a <==> k in b
  {
    assert |multiset(a)| == |multiset(b)|;
    assert forall k :: k in a <==> k in multiset(a);
    assert forall k :: k in b <==> k in multiset(b);
  }

  lemma KeysAreStrict(ks: seq<Key>)
    requires forall i, j :: 0 <= i < j < |ks| ==> ks[i] <= ks[j]
    requires forall j :: 1 <= j < |ks| ==> ks[j] != ks[j - 1]
    requires MIN_KEY !in ks && MAX_KEY !in ks
    ensures StrictlySorted(ks) && StrictlySorted([MIN_KEY] + ks + [MAX_KEY])
  {
    forall i, j | 0 <= i < j < |ks| ensures ks[i] < ks[j] {
      assert ks[i] <= ks[j - 1] < ks[j] || i == j - 1;
    }
    forall i | 0 <= i < |ks| ensures MIN_KEY < ks[i] < MAX_KEY {
      assert ks[i] in ks;
    }
  }
}
