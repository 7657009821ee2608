/**
 * What an accepted roster proof means, and that every generated proof is accepted
 * (pipeline/roster.ts, lines 136-218).
 */
module RosterProofs {
  import opened Prelude
  import opened Hashing
  import opened RosterTree

  // ---------- Strings hashed by the builder and by a verifier ----------

  ghost function NodePreimages(s: Scheme, layer: seq<Word256>): set<Bytes>
    decreases |layer|
  {
    if |layer| <= 1 then {}
    else
      (set i | 0 <= i < (|layer| + 1) / 2 :: Tagged(1, layer[2 * i], RightOf(layer, i)))
      + NodePreimages(s, Parents(s, layer))
  }

  ghost function TreePreimages(s: Scheme, t: Tree): set<Bytes>
    requires |t.keys| == |t.marks| && t.leaves != []
  {
    (set i | 0 <= i < |t.keys| :: Tagged(0, t.keys[i], t.marks[i]))
    + NodePreimages(s, t.leaves)
    + {Tagged(2, |t.leaves|, Top(s, t.leaves))}
  }

  function JoinPreimage(acc: Word256, idx: nat, sibling: Word256): Bytes {
    if idx % 2 == 0 then Tagged(1, acc, sibling) else Tagged(1, sibling, acc)
  }

  ghost function ClimbPreimages(s: Scheme, acc: Word256, idx: nat, siblings: seq<Word256>): set<Bytes>
    decreases |siblings|
  {
    if siblings == [] then {}
    else {JoinPreimage(acc, idx, siblings[0])} + ClimbPreimages(s, Join(s, acc, idx, siblings[0]), idx / 2,
        siblings[1..])
  }

  ghost function ProofPreimages(s: Scheme, leaf: Word256, p: Proof): set<Bytes> {
    if !WellFormed(p) then {}
    else
      ClimbPreimages(s, leaf, p.index, p.siblings)
      + match Climb(s, leaf, p.index, p.leafCount, p.siblings)
        case None => {}
        case Some(top) => {Tagged(2, p.leafCount, top)}
  }

  // ---------- Soundness ----------

  function RightOf(layer: seq<Word256>, k: nat): Word256
    requires 2 * k < |layer|
  {
    if 2 * k + 1 < |layer| then layer[2 * k + 1] else layer[2 * k]
  }

  lemma JoinedChild(s: Scheme, layer: seq<Word256>, acc: Word256, idx: nat, sibling: Word256, hashed: set<Bytes>)
    requires idx < |layer| && CollisionFree(s.H, hashed)
    requires JoinPreimage(acc, idx, sibling) in hashed &&
        Tagged(1, layer[2 * (idx / 2)], RightOf(layer, idx / 2)) in hashed
    requires Join(s, acc, idx, sibling) == Parent(s, layer, idx / 2)
    ensures acc == layer[idx]
  {
    var k := idx / 2;
    if idx % 2 == 0 {
      TaggedInjective(1, acc, sibling, 1, layer[2 * k], RightOf(layer, k));
    } else {
      TaggedInjective(1, sibling, acc, 1, layer[2 * k], RightOf(layer, k));
    }
  }

  /** A climb that reaches the top of a layer started from the leaf at its index. */
  lemma {:induction false} ClimbStartsAtLeaf(s: Scheme, layer: seq<Word256>, acc: Word256, idx: nat,
      siblings: seq<Word256>, hashed: set<Bytes>)
    requires idx < |layer| && CollisionFree(s.H, hashed)
    requires NodePreimages(s, layer) <= hashed && ClimbPreimages(s, acc, idx, siblings) <= hashed
    requires Climb(s, acc, idx, |layer|, siblings) == Some(Top(s, layer))
    ensures acc == layer[idx]
    decreases |layer|
  {
    if |layer| > 1 {
      ClimbStartsAtLeaf(s, Parents(s, layer), Join(s, acc, idx, siblings[0]), idx / 2, siblings[1..], hashed);
      assert Tagged(1, layer[2 * (idx / 2)], RightOf(layer, idx / 2)) in NodePreimages(s, layer);
      JoinedChild(s, layer, acc, idx, siblings[0], hashed);
    }
  }

  /** An accepted inclusion proof carries the true leaf count and the leaf that is at its index. */
  lemma AcceptedLeafIsAtIndex(s: Scheme, entries: seq<RosterEntry>, t: Tree, leaf: Word256, p: Proof,
      hashed: set<Bytes>)
    requires BuiltFrom(s, entries, t) && Accepts(s, t.root, leaf, p)
    requires CollisionFree(s.H, hashed) && TreePreimages(s, t) <= hashed && ProofPreimages(s, leaf, p) <= hashed
    ensures p.leafCount == |t.leaves| && 0 <= p.index < |t.leaves| && leaf == t.leaves[p.index]
  {
    var top := Climb(s, leaf, p.index, p.leafCount, p.siblings).value;
    assert Tagged(2, p.leafCount, top) in hashed && Tagged(2, |t.leaves|, Top(s, t.leaves)) in hashed;
    TaggedInjective(2, p.leafCount, top, 2, |t.leaves|, Top(s, t.leaves));
    ClimbStartsAtLeaf(s, t.leaves, leaf, p.index, p.siblings, hashed);
  }

  /** The proof names the key and mark actually stored at its index. */
  lemma AcceptedKeyIsAtIndex(s: Scheme, entries: seq<RosterEntry>, t: Tree, key: Key, mark: Word256, p: Proof,
      hashed: set<Bytes>)
    requires BuiltFrom(s, entries, t) && Accepts(s, t.root, LeafOf(s, key, mark), p)
    requires CollisionFree(s.H, hashed) && TreePreimages(s, t) <= hashed
    requires ProofPreimages(s, LeafOf(s, key, mark), p) <= hashed && Tagged(0, key, mark) in hashed
    ensures p.leafCount == |t.leaves| && 0 <= p.index < |t.leaves|
    ensures key == t.keys[p.index] && mark == t.marks[p.index]
  {
    AcceptedLeafIsAtIndex(s, entries, t, LeafOf(s, key, mark), p, hashed);
    var i := p.index;
    assert Tagged(0, t.keys[i], t.marks[i]) in TreePreimages(s, t);
    TaggedInjective(0, key, mark, 0, t.keys[i], t.marks[i]);
  }

  ghost function GapPreimages(s: Scheme, p: GapProof): set<Bytes>
    requires p.leftKey.Some? && p.rightKey.Some?
  {
    ProofPreimages(s, LeafOf(s, p.leftKey.value, p.leftMark), p.left) + {Tagged(0, p.leftKey.value, p.leftMark)}
    + ProofPreimages(s, LeafOf(s, p.rightKey.value, p.rightMark), p.right) + {Tagged(0, p.rightKey.value, p.rightMark)}
  }

  lemma SortedAtMost(keys: seq<Key>, i: nat, j: nat)
    requires StrictlySorted(keys) && i <= j < |keys|
    ensures keys[i] <= keys[j]
  {
  }

  lemma NothingBetweenNeighbours(keys: seq<Key>, i: nat, k: Key)
    requires StrictlySorted(keys) && i + 1 < |keys| && keys[i] < k < keys[i + 1]
    ensures k !in keys
  {
    forall j | 0 <= j < |keys| ensures keys[j] != k {
      if j <= i {
        SortedAtMost(keys, j, i);
      } else {
        SortedAtMost(keys, i + 1, j);
      }
    }
  }

  lemma ListedSubjectHasKey(s: Scheme, entries: seq<RosterEntry>, t: Tree, e: RosterEntry)
    requires BuiltFrom(s, entries, t) && e in entries
    ensures SubjectKey(s, e.subject) in t.keys
  {
    assert e in multiset(t.entries);
    var i :| 0 <= i < |t.entries| && t.entries[i] == e;
    assert t.keys[i + 1] == SubjectKey(s, e.subject);
  }

  lemma MissingKeyMeansUnlisted(s: Scheme, entries: seq<RosterEntry>, t: Tree, target: Address)
    requires BuiltFrom(s, entries, t) && SubjectKey(s, target) !in t.keys
    ensures forall e :: e in entries ==> e.subject != target
  {
    forall e | e in entries ensures e.subject != target {
      ListedSubjectHasKey(s, entries, t, e);
    }
  }

  lemma GapMeansAbsent(s: Scheme, entries: seq<RosterEntry>, t: Tree, target: Address, lo: nat)
    requires BuiltFrom(s, entries, t) && GapAt(t, SubjectKey(s, target), lo)
    ensures SubjectKey(s, target) !in t.keys
    ensures forall e :: e in entries ==> e.subject != target
  {
    NothingBetweenNeighbours(t.keys, lo, SubjectKey(s, target));
    MissingKeyMeansUnlisted(s, entries, t, target);
  }

  /** Both keys of an accepted gap are neighbouring keys of the tree. */
  lemma AcceptedGapIsAdjacent(s: Scheme, entries: seq<RosterEntry>, t: Tree, target: Address, p: GapProof,
      hashed: set<Bytes>)
    requires BuiltFrom(s, entries, t) && AcceptsGap(s, t.root, target, p)
    requires CollisionFree(s.H, hashed) && TreePreimages(s, t) <= hashed && GapPreimages(s, p) <= hashed
    ensures 0 <= p.left.index && GapAt(t, SubjectKey(s, target), p.left.index)
  {
    AcceptedKeyIsAtIndex(s, entries, t, p.leftKey.value, p.leftMark, p.left, hashed);
    AcceptedKeyIsAtIndex(s, entries, t, p.rightKey.value, p.rightMark, p.right, hashed);
  }

  /** An accepted non-inclusion proof implies that the target's key is nowhere in the tree. */
  lemma AcceptedGapMeansAbsent(s: Scheme, entries: seq<RosterEntry>, t: Tree, target: Address, p: GapProof,
      hashed: set<Bytes>)
    requires BuiltFrom(s, entries, t) && AcceptsGap(s, t.root, target, p)
    requires CollisionFree(s.H, hashed) && TreePreimages(s, t) <= hashed && GapPreimages(s, p) <= hashed
    ensures SubjectKey(s, target) !in t.keys
    ensures forall e :: e in entries ==> e.subject != target
  {
    AcceptedGapIsAdjacent(s, entries, t, target, p, hashed);
    GapMeansAbsent(s, entries, t, target, p.left.index);
  }

  /** No subject has both an accepted inclusion proof and an accepted non-inclusion proof. */
  lemma NeverBoth(s: Scheme, entries: seq<RosterEntry>, t: Tree, target: Address, mark: Word256, p: Proof,
      gap: GapProof, hashed: set<Bytes>)
    requires BuiltFrom(s, entries, t) && gap.leftKey.Some? && gap.rightKey.Some?
    requires CollisionFree(s.H, hashed) && TreePreimages(s, t) <= hashed && GapPreimages(s, gap) <= hashed
    requires ProofPreimages(s, LeafOf(s, SubjectKey(s, target), mark), p) <= hashed &&
        Tagged(0, SubjectKey(s, target), mark) in hashed
    ensures !(Accepts(s, t.root, LeafOf(s, SubjectKey(s, target), mark), p) && AcceptsGap(s, t.root, target, gap))
  {
    if Accepts(s, t.root, LeafOf(s, SubjectKey(s, target), mark), p) && AcceptsGap(s, t.root, target, gap) {
      AcceptedGapMeansAbsent(s, entries, t, target, gap, hashed);
      AcceptedKeyIsAtIndex(s, entries, t, SubjectKey(s, target), mark, p, hashed);
      assert false;
    }
  }

  lemma SubjectPreimageInjective(s: Scheme, x: Address, y: Address)
    requires SubjectPreimage(s, x) == SubjectPreimage(s, y)
    ensures x == y
  {
    MiddleEqual(Word(64), Word(x), Word(y), NamespaceTail(s));
    WordInjective(x, y);
  }

  lemma MarkPreimageInjective(d: RosterEntry, e: RosterEntry)
    requires MarkPreimage(d) == MarkPreimage(e)
    ensures d.attrs == e.attrs && d.claimsRoot == e.claimsRoot && d.evidenceHash == e.evidenceHash &&
        d.issuer == e.issuer
  {
    SplitEqual(Word(d.attrs) + Word(d.claimsRoot) + Word(d.evidenceHash), Word(d.issuer),
               Word(e.attrs) + Word(e.claimsRoot) + Word(e.evidenceHash), Word(e.issuer));
    SplitEqual(Word(d.attrs) + Word(d.claimsRoot), Word(d.evidenceHash), Word(e.attrs) + Word(e.claimsRoot),
        Word(e.evidenceHash));
    SplitEqual(Word(d.attrs), Word(d.claimsRoot), Word(e.attrs), Word(e.claimsRoot));
    WordInjective(d.attrs, e.attrs);
    WordInjective(d.claimsRoot, e.claimsRoot);
    WordInjective(d.evidenceHash, e.evidenceHash);
    WordInjective(d.issuer, e.issuer);
  }

  ghost function EntryPreimages(s: Scheme, e: RosterEntry): set<Bytes> {
    {SubjectPreimage(s, e.subject), MarkPreimage(e)}
  }

  lemma SameHashesSameEntry(s: Scheme, d: RosterEntry, e: RosterEntry, hashed: set<Bytes>)
    requires CollisionFree(s.H, hashed) && EntryPreimages(s, d) <= hashed && EntryPreimages(s, e) <= hashed
    requires SubjectKey(s, d.subject) == SubjectKey(s, e.subject) && MarkHash(s, d) == MarkHash(s, e)
    ensures d == e
  {
    assert SubjectPreimage(s, d.subject) in hashed && SubjectPreimage(s, e.subject) in hashed;
    assert MarkPreimage(d) in hashed && MarkPreimage(e) in hashed;
    SubjectPreimageInjective(s, d.subject, e.subject);
    MarkPreimageInjective(d, e);
  }

  lemma EntryAtIndex(s: Scheme, entries: seq<RosterEntry>, t: Tree, i: nat) returns (d: RosterEntry)
    requires BuiltFrom(s, entries, t) && i < |t.keys| && t.keys[i] != MIN_KEY && t.keys[i] != MAX_KEY
    ensures d in entries && SubjectKey(s, d.subject) == t.keys[i] && MarkHash(s, d) == t.marks[i]
  {
    assert t.keys[0] == MIN_KEY && t.keys[|t.keys| - 1] == MAX_KEY;
    d := t.entries[i - 1];
    assert d in multiset(entries);
  }

  /** A proof accepted for a whole entry shows that exactly this entry was committed. */
  lemma AcceptedEntryWasCommitted(s: Scheme, entries: seq<RosterEntry>, t: Tree, e: RosterEntry, p: Proof,
      hashed: set<Bytes>)
    requires BuiltFrom(s, entries, t) && Accepts(s, t.root, LeafOf(s, SubjectKey(s, e.subject), MarkHash(s, e)), p)
    requires CollisionFree(s.H, hashed) && TreePreimages(s, t) <= hashed
    requires ProofPreimages(s, LeafOf(s, SubjectKey(s, e.subject), MarkHash(s, e)), p) <= hashed
    requires Tagged(0, SubjectKey(s, e.subject), MarkHash(s, e)) in hashed
    requires EntryPreimages(s, e) <= hashed && forall d :: d in entries ==> EntryPreimages(s, d) <= hashed
    requires SubjectKey(s, e.subject) != MIN_KEY && SubjectKey(s, e.subject) != MAX_KEY
    ensures e in entries
  {
    AcceptedKeyIsAtIndex(s, entries, t, SubjectKey(s, e.subject), MarkHash(s, e), p, hashed);
    var d := EntryAtIndex(s, entries, t, p.index);
    SameHashesSameEntry(s, d, e, hashed);
  }

  // ---------- Completeness ----------

  lemma {:induction false} GeneratedClimbReachesTop(s: Scheme, layer: seq<Word256>, idx: nat)
    requires idx < |layer|
    ensures Climb(s, layer[idx], idx, |layer|, Siblings(s, layer, idx)) == Some(Top(s, layer))
    decreases |layer|
  {
    if |layer| > 1 {
      GeneratedClimbReachesTop(s, Parents(s, layer), idx / 2);
      assert Join(s, layer[idx], idx, Sibling(layer, idx)) == Parents(s, layer)[idx / 2];
    }
  }

  /** Layer l of the stored tree continues to the same top. */
  lemma {:induction false} LayerAt(s: Scheme, layer: seq<Word256>, l: nat)
    requires layer != [] && l < |Layers(s, layer)|
    ensures Layers(s, layer)[l] != []
    ensures Layers(s, Layers(s, layer)[l]) == Layers(s, layer)[l..]
    decreases l
  {
    if l > 0 {
      LayerAt(s, Parents(s, layer), l - 1);
      assert Layers(s, layer)[l..] == Layers(s, Parents(s, layer))[l - 1..];
    }
  }

  method InclusionProof(s: Scheme, ghost entries: seq<RosterEntry>, t: Tree, index: int)
      returns (r: Result<Proof, string>)
    requires BuiltFrom(s, entries, t)
    ensures r.Ok? <==> 0 <= index < |t.leaves|
    ensures r.Ok? ==> r.value == Proof(index, |t.leaves|, Siblings(s, t.leaves, index))
  {
    if index > MAX_SAFE_INTEGER || index < 0 || index >= |t.leaves| {
      return Err("index out of range");
    }
    var siblings: seq<Word256> := [];
    var idx: nat := index;
    var l := 0;
    LayerAt(s, t.leaves, 0);
    while l < |t.layers| - 1
      invariant 0 <= l < |t.layers|
      invariant t.layers[l] != [] && Layers(s, t.layers[l]) == t.layers[l..]
      invariant idx < |t.layers[l]|
      invariant Siblings(s, t.leaves, index) == siblings + Siblings(s, t.layers[l], idx)
    {
      var layer := t.layers[l];
      var pair := if idx % 2 == 0 then idx + 1 else idx - 1;
      assert |t.layers[l..]| > 1;
      assert t.layers[l..][1] == t.layers[l + 1] && t.layers[l..][1..] == t.layers[l + 1..];
      assert t.layers[l + 1] == Parents(s, layer);
      ghost var rest := Siblings(s, Parents(s, layer), idx / 2);
      assert siblings + ([Sibling(layer, idx)] + rest) == (siblings + [Sibling(layer, idx)]) + rest;
      siblings := siblings + [if pair < |layer| then layer[pair] else layer[idx]];
      idx := idx / 2;
      l := l + 1;
    }
    assert |t.layers[l..]| == 1;
    return Ok(Proof(index, |t.leaves|, siblings));
  }

  /** Every generated inclusion proof verifies, with at most 53 siblings for a safe leaf count. */
  lemma GeneratedProofIsAccepted(s: Scheme, entries: seq<RosterEntry>, t: Tree, index: nat)
    requires BuiltFrom(s, entries, t) && index < |t.leaves|
    ensures |Siblings(s, t.leaves, index)| <= 53
    ensures Accepts(s, t.root, t.leaves[index], Proof(index, |t.leaves|, Siblings(s, t.leaves, index)))
  {
    SafeDepth(|t.leaves|);
    GeneratedClimbReachesTop(s, t.leaves, index);
  }

  /** The pair of neighbouring leaves around a missing key. */
  ghost predicate GapAt(t: Tree, tk: Key, lo: nat) {
    lo + 1 < |t.keys| && t.keys[lo] < tk < t.keys[lo + 1]
  }

  ghost function GapProofAt(s: Scheme, t: Tree, lo: nat): GapProof
    requires lo + 1 < |t.keys| == |t.marks| == |t.leaves|
  {
    GapProof(Proof(lo, |t.leaves|, Siblings(s, t.leaves, lo)), Some(t.keys[lo]), t.marks[lo],
             Proof(lo + 1, |t.leaves|, Siblings(s, t.leaves, lo + 1)), Some(t.keys[lo + 1]), t.marks[lo + 1])
  }

  /** The one pair of neighbours around a missing key, with its two inclusion proofs. */
  ghost predicate IsGapProof(s: Scheme, t: Tree, tk: Key, p: GapProof)
    requires |t.keys| == |t.marks| == |t.leaves|
  {
    && (exists lo :: GapAt(t, tk, lo) && p == GapProofAt(s, t, lo))
    && (forall lo :: GapAt(t, tk, lo) ==> p == GapProofAt(s, t, lo))
  }

  /** At most one pair of neighbours encloses a key. */
  lemma GapIsUnique(s: Scheme, t: Tree, tk: Key, lo: nat)
    requires StrictlySorted(t.keys) && GapAt(t, tk, lo) && |t.keys| == |t.marks| == |t.leaves|
    ensures IsGapProof(s, t, tk, GapProofAt(s, t, lo))
  {
    assert forall k: nat :: GapAt(t, tk, k) ==> k == lo;
  }

  lemma StoredKeyIsProvable(s: Scheme, entries: seq<RosterEntry>, t: Tree, i: nat)
    requires BuiltFrom(s, entries, t) && i < |t.keys|
    ensures Accepts(s, t.root, LeafOf(s, t.keys[i], t.marks[i]), Proof(i, |t.leaves|, Siblings(s, t.leaves, i)))
  {
    GeneratedProofIsAccepted(s, entries, t, i);
  }

  /** Every generated non-inclusion proof verifies. */
  lemma GeneratedGapIsAccepted(s: Scheme, entries: seq<RosterEntry>, t: Tree, target: Address, lo: nat)
    requires BuiltFrom(s, entries, t) && GapAt(t, SubjectKey(s, target), lo)
    ensures AcceptsGap(s, t.root, target, GapProofAt(s, t, lo))
  {
    StoredKeyIsProvable(s, entries, t, lo);
    StoredKeyIsProvable(s, entries, t, lo + 1);
    GapOfAccepted(s, t, target, lo, Proof(lo, |t.leaves|, Siblings(s, t.leaves, lo)),
                  Proof(lo + 1, |t.leaves|, Siblings(s, t.leaves, lo + 1)));
  }

  lemma GapOfAccepted(s: Scheme, t: Tree, target: Address, lo: nat, left: Proof, right: Proof)
    requires |t.keys| == |t.marks| == |t.leaves| && GapAt(t, SubjectKey(s, target), lo)
    requires Accepts(s, t.root, LeafOf(s, t.keys[lo], t.marks[lo]), left)
    requires Accepts(s, t.root, LeafOf(s, t.keys[lo + 1], t.marks[lo + 1]), right)
    requires left == Proof(lo, |t.leaves|, Siblings(s, t.leaves, lo))
    requires right == Proof(lo + 1, |t.leaves|, Siblings(s, t.leaves, lo + 1))
    ensures AcceptsGap(s, t.root, target, GapProofAt(s, t, lo))
  {
  }

  method FirstGreater(keys: seq<Key>, tk: Key) returns (hi: nat)
    ensures hi <= |keys| && forall j :: 0 <= j < hi ==> keys[j] <= tk
    ensures hi < |keys| ==> tk < keys[hi]
  {
    hi := 0;
    while hi < |keys| && keys[hi] <= tk
      invariant 0 <= hi <= |keys|
      invariant forall j :: 0 <= j < hi ==> keys[j] <= tk
    {
      hi := hi + 1;
    }
  }

  /** The proof of the pair at lo and lo + 1. */
  method ProveGap(s: Scheme, ghost entries: seq<RosterEntry>, t: Tree, lo: nat) returns (p: GapProof)
    requires BuiltFrom(s, entries, t) && lo + 1 < |t.keys|
    ensures p == GapProofAt(s, t, lo)
  {
    var left := InclusionProof(s, entries, t, lo);
    var right := InclusionProof(s, entries, t, lo + 1);
    return GapProof(left.value, Some(t.keys[lo]), t.marks[lo], right.value, Some(t.keys[lo + 1]), t.marks[lo + 1]);
  }

  lemma GreaterKeyBoundsGap(s: Scheme, entries: seq<RosterEntry>, t: Tree, tk: Key, hi: nat)
    requires BuiltFrom(s, entries, t) && tk !in t.keys
    requires hi <= |t.keys| && forall j :: 0 <= j < hi ==> t.keys[j] <= tk
    requires hi < |t.keys| ==> tk < t.keys[hi]
    ensures 0 < hi < |t.keys| && GapAt(t, tk, hi - 1)
  {
    assert t.keys[|t.keys| - 1] == MAX_KEY && t.keys[0] == MIN_KEY;
    assert t.keys[|t.keys| - 1] in t.keys;
    assert t.keys[hi - 1] in t.keys;
  }

  /** Linear search for the first greater key. The second error the program can raise here is dead. */
  method NonInclusionProof(s: Scheme, ghost entries: seq<RosterEntry>, t: Tree, target: Address)
      returns (r: Result<GapProof, string>)
    requires BuiltFrom(s, entries, t)
    ensures r.Ok? <==> SubjectKey(s, target) !in t.keys
    ensures r.Ok? ==> IsGapProof(s, t, SubjectKey(s, target), r.value)
  {
    var tk := SubjectKey(s, target);
    if tk in t.keys {
      return Err("the target is in the roster");
    }
    var hi := FirstGreater(t.keys, tk);
    GreaterKeyBoundsGap(s, entries, t, tk, hi);
    var lo := hi - 1;
    var gap := ProveGap(s, entries, t, lo);
    GapIsUnique(s, t, tk, lo);
    return Ok(gap);
  }

  // ---------- The root is independent of entry order ----------

  ghost predicate SortedEntries(s: Scheme, a: seq<RosterEntry>) {
    forall i, j :: 0 <= i < j < |a| ==> SubjectKey(s, a[i].subject) < SubjectKey(s, a[j].subject)
  }

  lemma LeastEntryFirst(s: Scheme, a: seq<RosterEntry>, e: RosterEntry)
    requires SortedEntries(s, a) && e in a
    ensures SubjectKey(s, a[0].subject) <= SubjectKey(s, e.subject)
    ensures SubjectKey(s, a[0].subject) == SubjectKey(s, e.subject) ==> a[0] == e
  {
    var i :| 0 <= i < |a| && a[i] == e;
  }

  lemma SameLeastEntry(s: Scheme, a: seq<RosterEntry>, b: seq<RosterEntry>)
    requires multiset(a) == multiset(b) && SortedEntries(s, a) && SortedEntries(s, b) && a != [] && b != []
    ensures a[0] == b[0] && multiset(a[1..]) == multiset(b[1..])
  {
    assert a[0] in multiset(b) && b[0] in multiset(a);
    LeastEntryFirst(s, a, b[0]);
    LeastEntryFirst(s, b, a[0]);
    DropFirst(a);
    DropFirst(b);
  }

  lemma {:induction false} SortedEntriesUnique(s: Scheme, a: seq<RosterEntry>, b: seq<RosterEntry>)
    requires multiset(a) == multiset(b) && SortedEntries(s, a) && SortedEntries(s, b)
    ensures a == b
  {
    assert |multiset(a)| == |multiset(b)|;
    if a != [] {
      SameLeastEntry(s, a, b);
      SortedEntriesUnique(s, a[1..], b[1..]);
      DropFirst(a);
      DropFirst(b);
    }
  }

  lemma TreeEntriesSorted(s: Scheme, entries: seq<RosterEntry>, t: Tree)
    requires BuiltFrom(s, entries, t)
    ensures SortedEntries(s, t.entries)
  {
    assert forall i :: 0 <= i < |t.entries| ==> t.keys[i + 1] == SubjectKey(s, t.entries[i].subject);
  }

  /** Two listings of the same entries build the same tree, hence the same root. */
  lemma TreeIgnoresOrder(s: Scheme, entries: seq<RosterEntry>, entries': seq<RosterEntry>, t: Tree, t': Tree)
    requires multiset(entries) == multiset(entries') && BuiltFrom(s, entries, t) && BuiltFrom(s, entries', t')
    ensures t == t'
  {
    TreeEntriesSorted(s, entries, t);
    TreeEntriesSorted(s, entries', t');
    SortedEntriesUnique(s, t.entries, t'.entries);
  }

  // ---------- The proof service (pipeline/roster-bundle.ts, lines 83-102) ----------

  datatype Answer = Present(entry: RosterEntry, inclusion: Proof) | Absent(gap: GapProof)

  /** First index in 1..|keys| - 1 whose key is not below the target. */
  method FirstNotBelow(keys: seq<Key>, key: Key) returns (lo: nat)
    requires StrictlySorted(keys) && |keys| >= 2
    ensures 1 <= lo < |keys|
    ensures forall j :: 1 <= j < lo ==> keys[j] < key
    ensures lo < |keys| - 1 ==> key <= keys[lo]
  {
    var low, hi := 1, |keys| - 1;
    while low < hi
      invariant 1 <= low <= hi < |keys|
      invariant forall j :: 1 <= j < low ==> keys[j] < key
      invariant hi < |keys| - 1 ==> key <= keys[hi]
    {
      var mid := (low + hi) / 2;
      if keys[mid] < key {
        low := mid + 1;
      } else {
        hi := mid;
      }
    }
    return low;
  }

  /** The answer is about this subject and its proof is accepted against the tree's root. */
  ghost predicate Verifies(s: Scheme, t: Tree, subject: Address, a: Answer) {
    match a
    case Present(entry, p) =>
      && SubjectKey(s, entry.subject) == SubjectKey(s, subject)
      && Accepts(s, t.root, LeafOf(s, SubjectKey(s, subject), MarkHash(s, entry)), p)
    case Absent(gap) => AcceptsGap(s, t.root, subject, gap)
  }

  /** No gap at all proves a subject absent whose key is the lower sentinel. */
  lemma NoGapBelowSentinel(s: Scheme, root: Word256, subject: Address, gap: GapProof)
    requires SubjectKey(s, subject) == MIN_KEY
    ensures !AcceptsGap(s, root, subject, gap)
  {
  }

  /**
   * What the service answers. Something comes back and is accepted exactly for subjects whose key is no sentinel:
   * inclusion for the listed ones, otherwise the one pair around the key.
   */
  ghost predicate IsAnswer(s: Scheme, entries: seq<RosterEntry>, t: Tree, subject: Address, r: Result<Answer, string>)
    requires |t.keys| == |t.marks| == |t.leaves| >= 2
  {
    var key := SubjectKey(s, subject);
    && (r.Ok? && Verifies(s, t, subject, r.value) <==> key != MIN_KEY && key != MAX_KEY)
    && (r.Err? <==> key == MAX_KEY)
    && (key == MIN_KEY ==> r == Ok(Absent(GapProofAt(s, t, 0))))
    && (r.Ok? ==> (r.value.Present? <==> key in t.keys[1..|t.keys| - 1]))
    && (r.Ok? && r.value.Present? ==> r.value.entry in entries)
    && (r.Ok? && r.value.Absent? && key != MIN_KEY ==> IsGapProof(s, t, key, r.value.gap))
  }

  /**
   * Binary search. An answer comes back and is accepted exactly for subjects whose key is no sentinel: inclusion
   * for the listed ones and otherwise the pair the linear search finds. At the upper sentinel the program
   * fails; at the lower one it returns the lowest pair, which no verifier accepts.
   */
  method FindProof(s: Scheme, ghost entries: seq<RosterEntry>, t: Tree, subject: Address)
      returns (r: Result<Answer, string>)
    requires BuiltFrom(s, entries, t)
    ensures IsAnswer(s, entries, t, subject, r)
  {
    var lo := SearchKey(s, entries, t, subject);
    if t.keys[lo] != SubjectKey(s, subject) {
      r := AnswerGap(s, entries, t, subject, lo - 1);
      return;
    }
    if lo - 1 >= |t.entries| {
      return Err("no entry behind the upper sentinel");
    }
    r := AnswerEntry(s, entries, t, subject, lo);
  }

  /** Where the binary search stops: at the key, or with the key in the gap before. */
  method SearchKey(s: Scheme, ghost entries: seq<RosterEntry>, t: Tree, subject: Address) returns (lo: nat)
    requires BuiltFrom(s, entries, t)
    ensures 1 <= lo < |t.keys| == |t.entries| + 2
    ensures t.keys[lo] == SubjectKey(s, subject) ==> (lo == |t.keys| - 1 <==> SubjectKey(s, subject) == MAX_KEY)
    ensures t.keys[lo] != SubjectKey(s, subject) ==>
              && SubjectKey(s, subject) != MAX_KEY && SubjectKey(s, subject) !in t.keys[1..|t.keys| - 1]
              && if SubjectKey(s, subject) == MIN_KEY then lo == 1 else GapAt(t, SubjectKey(s, subject), lo - 1)
    ensures MIN_KEY != MAX_KEY && (t.keys[lo] == SubjectKey(s, subject) ==> SubjectKey(s, subject) != MIN_KEY)
  {
    SentinelsEncloseAll(s, entries, t, subject);
    lo := FirstNotBelow(t.keys, SubjectKey(s, subject));
    if t.keys[lo] != SubjectKey(s, subject) {
      StopsAtGap(t, lo, SubjectKey(s, subject));
    } else {
      assert t.keys[0] < t.keys[lo];
      assert lo < |t.keys| - 1 ==> t.keys[lo] < t.keys[|t.keys| - 1];
    }
  }

  method AnswerEntry(s: Scheme, ghost entries: seq<RosterEntry>, t: Tree, subject: Address, i: nat)
      returns (r: Result<Answer, string>)
    requires BuiltFrom(s, entries, t) && 1 <= i <= |t.entries| && t.keys[i] == SubjectKey(s, subject)
    requires SubjectKey(s, subject) != MIN_KEY && SubjectKey(s, subject) != MAX_KEY
    ensures IsAnswer(s, entries, t, subject, r)
  {
    var inclusion := InclusionProof(s, entries, t, i);
    InnerKeyIsProvable(s, entries, t, subject, i, inclusion.value);
    return Ok(Present(t.entries[i - 1], inclusion.value));
  }

  method AnswerGap(s: Scheme, ghost entries: seq<RosterEntry>, t: Tree, subject: Address, lo: nat)
      returns (r: Result<Answer, string>)
    requires BuiltFrom(s, entries, t) && lo + 1 < |t.keys|
    requires SubjectKey(s, subject) != MAX_KEY && SubjectKey(s, subject) !in t.keys[1..|t.keys| - 1]
    requires if SubjectKey(s, subject) == MIN_KEY then lo == 0 else GapAt(t, SubjectKey(s, subject), lo)
    ensures IsAnswer(s, entries, t, subject, r)
  {
    var gap := ProveGap(s, entries, t, lo);
    if SubjectKey(s, subject) == MIN_KEY {
      NoGapBelowSentinel(s, t.root, subject, gap);
    } else {
      GapIsUnique(s, t, SubjectKey(s, subject), lo);
      GeneratedGapIsAccepted(s, entries, t, subject, lo);
    }
    return Ok(Absent(gap));
  }

  lemma SentinelsEncloseAll(s: Scheme, entries: seq<RosterEntry>, t: Tree, subject: Address)
    requires BuiltFrom(s, entries, t)
    ensures |t.keys| == |t.marks| == |t.leaves| >= 2 && |t.entries| + 2 == |t.keys| && StrictlySorted(t.keys)
    ensures t.keys[0] == MIN_KEY && t.keys[|t.keys| - 1] == MAX_KEY && MIN_KEY <= SubjectKey(s, subject) <= MAX_KEY
  {
  }

  /** Where the search stops short of a key, that key lies in the gap before, or is the lower sentinel. */
  lemma StopsAtGap(t: Tree, lo: nat, key: Key)
    requires StrictlySorted(t.keys) && |t.keys| >= 2 && t.keys[0] == MIN_KEY && t.keys[|t.keys| - 1] == MAX_KEY
    requires 1 <= lo < |t.keys| && t.keys[lo] != key && forall j :: 1 <= j < lo ==> t.keys[j] < key
    requires lo < |t.keys| - 1 ==> key <= t.keys[lo]
    ensures key != MAX_KEY && key !in t.keys[1..|t.keys| - 1]
    ensures if key == MIN_KEY then lo == 1 else GapAt(t, key, lo - 1)
  {
    MissesInnerKeys(t.keys, lo, key);
  }

  lemma InnerKeyIsProvable(s: Scheme, entries: seq<RosterEntry>, t: Tree, subject: Address, i: nat, p: Proof)
    requires BuiltFrom(s, entries, t) && 1 <= i <= |t.entries| && t.keys[i] == SubjectKey(s, subject)
    requires p == Proof(i, |t.leaves|, Siblings(s, t.leaves, i))
    ensures t.entries[i - 1] in entries && t.keys[i] in t.keys[1..|t.keys| - 1]
    ensures Verifies(s, t, subject, Present(t.entries[i - 1], p))
  {
    InnerEntryIsListed(s, entries, t, i);
    GeneratedProofIsAccepted(s, entries, t, i);
  }

  lemma InnerEntryIsListed(s: Scheme, entries: seq<RosterEntry>, t: Tree, i: nat)
    requires BuiltFrom(s, entries, t) && 1 <= i <= |t.entries|
    ensures t.entries[i - 1] in entries && t.keys[i] in t.keys[1..|t.keys| - 1]
    ensures t.keys[i] == SubjectKey(s, t.entries[i - 1].subject)
    ensures t.leaves[i] == LeafOf(s, t.keys[i], MarkHash(s, t.entries[i - 1]))
  {
    assert t.entries[i - 1] in multiset(t.entries);
    assert t.keys[1..|t.keys| - 1][i - 1] == t.keys[i];
  }

  /** A key that the search does not find is no inner key. */
  lemma MissesInnerKeys(keys: seq<Key>, lo: nat, key: Key)
    requires StrictlySorted(keys) && 1 <= lo < |keys| && keys[lo] != key
    requires (forall j :: 1 <= j < lo ==> keys[j] < key) && (lo < |keys| - 1 ==> key <= keys[lo])
    ensures key !in keys[1..|keys| - 1]
  {
    forall j | 1 <= j < |keys| - 1 ensures keys[j] != key {
      if lo < j {
        assert keys[lo] < keys[j];
      }
    }
  }
}
