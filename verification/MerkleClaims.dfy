/**
 * Sorted-pair Merkle tree and selective disclosure of claims (pipeline/merkle.ts and
 * pipeline/claims.ts). Digests compare as their hexadecimal text does, that is numerically.
 */
module MerkleClaims {
  import opened Prelude
  import opened Sorting
  import opened Hashing

  // ---------- Tree (pipeline/merkle.ts) ----------

  function PairPreimage(a: Word256, b: Word256): Bytes {
    if a <= b then Word(a) + Word(b) else Word(b) + Word(a)
  }

  function HashPair(H: HashFn, a: Word256, b: Word256): Word256 {
    H(PairPreimage(a, b))
  }

  function AtMost(): (Word256, Word256) -> bool {
    (x: Word256, y: Word256) => x <= y
  }

  /** The library sort of the leaves. */
  function Sort(s: seq<Word256>): (r: seq<Word256>)
    ensures multiset(r) == multiset(s)
  {
    SortedBy(s, AtMost())
  }

  /** One level up: neighbours paired, an odd last one carried over unchanged. */
  function LevelUp(H: HashFn, level: seq<Word256>): (r: seq<Word256>)
    ensures |r| == (|level| + 1) / 2
  {
    seq((|level| + 1) / 2, i requires 0 <= i < (|level| + 1) / 2 => Above(H, level, i))
  }

  function Above(H: HashFn, level: seq<Word256>, i: nat): Word256
    requires 2 * i < |level|
  {
    if 2 * i + 1 < |level| then HashPair(H, level[2 * i], level[2 * i + 1]) else level[2 * i]
  }

  function Top(H: HashFn, level: seq<Word256>): Word256
    requires level != []
    decreases |level|
  {
    if |level| == 1 then level[0] else Top(H, LevelUp(H, level))
  }

  /** Siblings on the way up; a carried node has none. */
  function Path(H: HashFn, level: seq<Word256>, idx: nat): seq<Word256>
    requires idx < |level|
    decreases |level|
  {
    if |level| == 1 then [] else Neighbour(level, idx) + Path(H, LevelUp(H, level), idx / 2)
  }

  function Fold(H: HashFn, acc: Word256, proof: seq<Word256>): Word256
    decreases |proof|
  {
    if proof == [] then acc else Fold(H, HashPair(H, acc, proof[0]), proof[1..])
  }

  function RootOf(H: HashFn, leaves: seq<Word256>): Word256 {
    if leaves == [] then 0
    else
      var sorted := Sort(leaves);
      assert sorted != [] by { assert leaves[0] in multiset(sorted); }
      Top(H, sorted)
  }

  method NextLevel(H: HashFn, level: seq<Word256>) returns (next: seq<Word256>)
    ensures next == LevelUp(H, level)
  {
    next := [];
    var i := 0;
    while i < |level|
      invariant i == 2 * |next| && |next| <= (|level| + 1) / 2
      invariant forall j :: 0 <= j < |next| ==> next[j] == Above(H, level, j)
    {
      next := next + [if i + 1 < |level| then HashPair(H, level[i], level[i + 1]) else level[i]];
      i := i + 2;
    }
  }

  method MerkleRoot(H: HashFn, leaves: seq<Word256>) returns (root: Word256)
    ensures root == RootOf(H, leaves)
  {
    if |leaves| == 0 {
      return 0;
    }
    var level := Sort(leaves);
    assert leaves[0] in multiset(level);
    while |level| > 1
      invariant level != [] && Top(H, level) == RootOf(H, leaves)
      decreases |level|
    {
      level := NextLevel(H, level);
    }
    return level[0];
  }

  function Neighbour(level: seq<Word256>, idx: nat): seq<Word256>
    requires idx < |level|
  {
    var sibling := if idx % 2 == 0 then idx + 1 else idx - 1;
    if sibling < |level| then [level[sibling]] else []
  }

  method ProofFrom(H: HashFn, sorted: seq<Word256>, start: nat) returns (proof: seq<Word256>)
    requires start < |sorted|
    ensures proof == Path(H, sorted, start)
  {
    var level := sorted;
    var idx: nat := start;
    proof := [];
    while |level| > 1
      invariant idx < |level|
      invariant Path(H, sorted, start) == proof + Path(H, level, idx)
      decreases |level|
    {
      ghost var rest := Path(H, LevelUp(H, level), idx / 2);
      assert proof + (Neighbour(level, idx) + rest) == (proof + Neighbour(level, idx)) + rest;
      proof := proof + Neighbour(level, idx);
      level := NextLevel(H, level);
      idx := idx / 2;
    }
    assert Path(H, level, idx) == [];
  }

  method MerkleProof(H: HashFn, leaves: seq<Word256>, leaf: Word256) returns (r: Result<seq<Word256>, string>)
    ensures r.Ok? <==> leaf in leaves
    ensures r.Ok? ==> exists idx: nat ::
              idx < |Sort(leaves)| && Sort(leaves)[idx] == leaf && r.value == Path(H, Sort(leaves), idx)
  {
    var sorted := Sort(leaves);
    assert leaf in leaves <==> leaf in multiset(leaves);
    assert leaf in sorted <==> leaf in multiset(sorted);
    if leaf !in sorted {
      return Err("leaf not found");
    }
    var idx: nat :| idx < |sorted| && sorted[idx] == leaf;
    var proof := ProofFrom(H, sorted, idx);
    return Ok(proof);
  }

  method VerifyProof(H: HashFn, root: Word256, leaf: Word256, proof: seq<Word256>) returns (ok: bool)
    ensures ok <==> Fold(H, leaf, proof) == root
  {
    var acc := leaf;
    for i := 0 to |proof|
      invariant Fold(H, leaf, proof) == Fold(H, acc, proof[i..])
    {
      assert proof[i..][1..] == proof[i + 1..];
      acc := HashPair(H, acc, proof[i]);
    }
    return acc == root;
  }

  // ---------- Completeness and order independence ----------

  lemma HashPairCommutes(H: HashFn, a: Word256, b: Word256)
    ensures HashPair(H, a, b) == HashPair(H, b, a)
  {
  }

  lemma FoldOneLevel(H: HashFn, level: seq<Word256>, idx: nat, rest: seq<Word256>)
    requires idx < |level| && |level| > 1
    ensures Fold(H, level[idx], Neighbour(level, idx) + rest) == Fold(H, LevelUp(H, level)[idx / 2], rest)
  {
    var step := Neighbour(level, idx);
    if step == [] {
      assert step + rest == rest;
    } else {
      assert (step + rest)[0] == step[0] && (step + rest)[1..] == rest;
      HashPairCommutes(H, level[idx], step[0]);
    }
  }

  lemma {:induction false} PathFoldsToTop(H: HashFn, level: seq<Word256>, idx: nat)
    requires idx < |level|
    ensures Fold(H, level[idx], Path(H, level, idx)) == Top(H, level)
    decreases |level|
  {
    if |level| > 1 {
      PathFoldsToTop(H, LevelUp(H, level), idx / 2);
      FoldOneLevel(H, level, idx, Path(H, LevelUp(H, level), idx / 2));
    }
  }

  ghost predicate Ascending(s: seq<Word256>) {
    forall i, j :: 0 <= i < j < |s| ==> s[i] <= s[j]
  }

  lemma SortAscends(s: seq<Word256>)
    ensures Ascending(Sort(s))
  {
    SortedByIsSorted(s, AtMost());
    forall i, j | 0 <= i < j < |Sort(s)| ensures Sort(s)[i] <= Sort(s)[j] {
      assert AtMost()(Sort(s)[i], Sort(s)[j]);
    }
  }

  lemma FirstIsLeast(s: seq<Word256>, x: Word256)
    requires Ascending(s) && x in multiset(s)
    ensures s != [] && s[0] <= x
  {
    var i :| 0 <= i < |s| && s[i] == x;
  }

  lemma SameFirst(a: seq<Word256>, b: seq<Word256>)
    requires multiset(a) == multiset(b) && Ascending(a) && Ascending(b) && a != [] && b != []
    ensures a[0] == b[0] && multiset(a[1..]) == multiset(b[1..])
  {
    assert a[0] in multiset(b) && b[0] in multiset(a);
    FirstIsLeast(a, b[0]);
    FirstIsLeast(b, a[0]);
    DropFirst(a);
    DropFirst(b);
  }

  lemma {:induction false} AscendingUnique(a: seq<Word256>, b: seq<Word256>)
    requires multiset(a) == multiset(b) && Ascending(a) && Ascending(b)
    ensures a == b
  {
    assert |multiset(a)| == |multiset(b)|;
    if a != [] {
      SameFirst(a, b);
      AscendingUnique(a[1..], b[1..]);
      assert a == [a[0]] + a[1..] && b == [b[0]] + b[1..];
    }
  }

  /** The root depends on the leaves as a multiset only. */
  lemma RootIgnoresOrder(H: HashFn, a: seq<Word256>, b: seq<Word256>)
    requires multiset(a) == multiset(b)
    ensures RootOf(H, a) == RootOf(H, b)
  {
    SortAscends(a);
    SortAscends(b);
    AscendingUnique(Sort(a), Sort(b));
    assert |multiset(a)| == |multiset(b)|;
  }

  // ---------- Claims (pipeline/claims.ts) ----------

  /** UTF-8 bytes of a string; its length is a JavaScript array length. */
  type Text = b: Bytes | |b| <= MAX_SAFE_INTEGER witness []

  datatype Claim = Claim(key: Text, value: Text, salt: Word256)

  function PaddedText(t: Text): Bytes {
    Word(|t|) + (t + Zeros((32 - |t| % 32) % 32))
  }

  /** Standard ABI encoding of (string, string, bytes32): two offsets, the salt, then both strings. */
  function ClaimPreimage(c: Claim): Bytes {
    (Word(96) + Word(96 + |PaddedText(c.key)|)) + (Word(c.salt) + (PaddedText(c.key) + PaddedText(c.value)))
  }

  function ClaimLeaf(H: HashFn, c: Claim): Word256 {
    H(ClaimPreimage(c))
  }

  function Leaves(H: HashFn, claims: seq<Claim>): (r: seq<Word256>)
    ensures |r| == |claims|
  {
    seq(|claims|, i requires 0 <= i < |claims| => ClaimLeaf(H, claims[i]))
  }

  function ClaimsRoot(H: HashFn, claims: seq<Claim>): Word256 {
    RootOf(H, Leaves(H, claims))
  }

  predicate DisclosureAccepted(H: HashFn, root: Word256, claim: Claim, proof: seq<Word256>) {
    Fold(H, ClaimLeaf(H, claim), proof) == root
  }

  method VerifyDisclosure(H: HashFn, root: Word256, claim: Claim, proof: seq<Word256>) returns (ok: bool)
    ensures ok <==> DisclosureAccepted(H, root, claim, proof)
  {
    ok := VerifyProof(H, root, ClaimLeaf(H, claim), proof);
  }

  /** Discloses the first claim of a name; whatever it returns is accepted against the claims root. */
  method DiscloseClaim(H: HashFn, claims: seq<Claim>, key: Text) returns (r: Result<(Claim, seq<Word256>), string>)
    ensures r.Ok? <==> exists c :: c in claims && c.key == key
    ensures r.Ok? ==> exists i :: 0 <= i < |claims| && r.value.0 == claims[i] && claims[i].key == key
                                  && forall j :: 0 <= j < i ==> claims[j].key != key
    ensures r.Ok? ==> DisclosureAccepted(H, ClaimsRoot(H, claims), r.value.0, r.value.1)
  {
    var i := 0;
    while i < |claims| && claims[i].key != key
      invariant 0 <= i <= |claims|
      invariant forall j :: 0 <= j < i ==> claims[j].key != key
    {
      i := i + 1;
    }
    if i == |claims| {
      return Err("no claim of that name");
    }
    var leaves := Leaves(H, claims);
    assert leaves[i] in leaves;
    var proof := MerkleProof(H, leaves, leaves[i]);
    ghost var idx: nat :| idx < |Sort(leaves)| && Sort(leaves)[idx] == leaves[i] &&
        proof.value == Path(H, Sort(leaves), idx);
    PathFoldsToTop(H, Sort(leaves), idx);
    return Ok((claims[i], proof.value));
  }

  /** Permuting the claims leaves their root unchanged. */
  lemma ClaimsRootIgnoresOrder(H: HashFn, a: seq<Claim>, b: seq<Claim>)
    requires multiset(a) == multiset(b)
    ensures ClaimsRoot(H, a) == ClaimsRoot(H, b)
  {
    LeavesOfPermutation(H, a, b);
    RootIgnoresOrder(H, Leaves(H, a), Leaves(H, b));
  }

  lemma LeavesAround(H: HashFn, b: seq<Claim>, i: nat)
    requires i < |b|
    ensures multiset(Leaves(H, b)) == multiset(Leaves(H, b[..i] + b[i + 1..])) + multiset{ClaimLeaf(H, b[i])}
  {
    var p, q := b[..i], b[i + 1..];
    assert b == p + [b[i]] + q;
    assert Leaves(H, b) == Leaves(H, p) + [ClaimLeaf(H, b[i])] + Leaves(H, q);
    assert Leaves(H, p + q) == Leaves(H, p) + Leaves(H, q);
  }

  lemma LeavesOfFirst(H: HashFn, a: seq<Claim>)
    requires a != []
    ensures multiset(Leaves(H, a)) == multiset(Leaves(H, a[1..])) + multiset{ClaimLeaf(H, a[0])}
  {
    assert Leaves(H, a) == [ClaimLeaf(H, a[0])] + Leaves(H, a[1..]);
  }

  lemma FirstElsewhere(a: seq<Claim>, b: seq<Claim>) returns (i: nat)
    requires multiset(a) == multiset(b) && a != []
    ensures i < |b| && b[i] == a[0] && multiset(a[1..]) == multiset(b[..i] + b[i + 1..])
  {
    assert a[0] in multiset(b);
    i :| 0 <= i < |b| && b[i] == a[0];
    DropFirst(a);
    assert b == b[..i] + [b[i]] + b[i + 1..];
    assert multiset(b) == multiset(b[..i] + b[i + 1..]) + multiset{b[i]};
  }

  lemma {:induction false} LeavesOfPermutation(H: HashFn, a: seq<Claim>, b: seq<Claim>)
    requires multiset(a) == multiset(b)
    ensures multiset(Leaves(H, a)) == multiset(Leaves(H, b))
  {
    if a == [] {
      assert |multiset(a)| == |multiset(b)|;
    } else {
      var i := FirstElsewhere(a, b);
      LeavesOfPermutation(H, a[1..], b[..i] + b[i + 1..]);
      LeavesAround(H, b, i);
      LeavesOfFirst(H, a);
    }
  }

  // ---------- Soundness ----------

  lemma TextInjective(t: Text, u: Text, x: Bytes, y: Bytes)
    requires PaddedText(t) + x == PaddedText(u) + y
    ensures t == u && x == y
  {
    var zt, zu := Zeros((32 - |t| % 32) % 32), Zeros((32 - |u| % 32) % 32);
    assert PaddedText(t) + x == Word(|t|) + ((t + zt) + x);
    assert PaddedText(u) + y == Word(|u|) + ((u + zu) + y);
    SplitEqual(Word(|t|), (t + zt) + x, Word(|u|), (u + zu) + y);
    WordInjective(|t|, |u|);
    SplitEqual(t + zt, x, u + zu, y);
    SplitEqual(t, zt, u, zu);
  }

  lemma ClaimPreimageInjective(c: Claim, d: Claim)
    requires ClaimPreimage(c) == ClaimPreimage(d)
    ensures c == d
  {
    SplitEqual(Word(96) + Word(96 + |PaddedText(c.key)|), Word(c.salt) + (PaddedText(c.key) + PaddedText(c.value)),
               Word(96) + Word(96 + |PaddedText(d.key)|), Word(d.salt) + (PaddedText(d.key) + PaddedText(d.value)));
    SplitEqual(Word(c.salt), PaddedText(c.key) + PaddedText(c.value), Word(d.salt),
        PaddedText(d.key) + PaddedText(d.value));
    WordInjective(c.salt, d.salt);
    TextInjective(c.key, d.key, PaddedText(c.value), PaddedText(d.value));
    assert PaddedText(c.value) + [] == PaddedText(d.value) + [];
    TextInjective(c.value, d.value, [], []);
  }

  /** A claim's preimage is at least 160 bytes, a pair's exactly 64: leaves and nodes never coincide. */
  lemma LeafIsNoPair(c: Claim, a: Word256, b: Word256)
    ensures |ClaimPreimage(c)| >= 160 && |PairPreimage(a, b)| == 64
    ensures ClaimPreimage(c) != PairPreimage(a, b)
  {
  }

  lemma PairPreimageInjective(a: Word256, b: Word256, c: Word256, d: Word256)
    requires PairPreimage(a, b) == PairPreimage(c, d)
    ensures (a == c && b == d) || (a == d && b == c)
  {
    var (a', b') := if a <= b then (a, b) else (b, a);
    var (c', d') := if c <= d then (c, d) else (d, c);
    SplitEqual(Word(a'), Word(b'), Word(c'), Word(d'));
    WordInjective(a', c');
    WordInjective(b', d');
  }

  /** Every value standing at some level of the tree. */
  ghost function TreeValues(H: HashFn, level: seq<Word256>): set<Word256>
    decreases |level|
  {
    (set x | x in level) + if |level| <= 1 then {} else TreeValues(H, LevelUp(H, level))
  }

  ghost function PairPreimages(H: HashFn, level: seq<Word256>): set<Bytes>
    decreases |level|
  {
    if |level| <= 1 then {}
    else (set i | 0 <= i < |level| / 2 :: PairPreimage(level[2 * i], level[2 * i + 1])) + PairPreimages(H,
        LevelUp(H, level))
  }

  ghost function FoldPreimages(H: HashFn, acc: Word256, proof: seq<Word256>): set<Bytes>
    decreases |proof|
  {
    if proof == [] then {}
    else {PairPreimage(acc, proof[0])} + FoldPreimages(H, HashPair(H, acc, proof[0]), proof[1..])
  }

  lemma {:induction false} TopIsTreeValue(H: HashFn, level: seq<Word256>)
    requires level != []
    ensures Top(H, level) in TreeValues(H, level)
    decreases |level|
  {
    if |level| > 1 {
      TopIsTreeValue(H, LevelUp(H, level));
    }
  }

  /** A value of the tree is a leaf or the hash of two values of the tree. */
  lemma {:induction false} TreeValueIsLeafOrPair(H: HashFn, level: seq<Word256>, v: Word256)
    requires v in TreeValues(H, level)
    ensures v in level || exists x, y :: x in TreeValues(H, level) && y in TreeValues(H, level)
                                      && v == HashPair(H, x, y) && PairPreimage(x, y) in PairPreimages(H, level)
    decreases |level|
  {
    if v !in level {
      var up := LevelUp(H, level);
      TreeValueIsLeafOrPair(H, up, v);
      if v in up {
        var i :| 0 <= i < |up| && up[i] == v;
        assert 2 * i + 1 < |level|;
        var x, y := level[2 * i], level[2 * i + 1];
        assert PairPreimage(x, y) in PairPreimages(H, level);
      } else {
        var x, y :| x in TreeValues(H, up) && y in TreeValues(H, up) && v == HashPair(H, x, y) &&
            PairPreimage(x, y) in PairPreimages(H, up);
        assert PairPreimage(x, y) in PairPreimages(H, level);
      }
    }
  }

  /** Strings hashed by the committed tree and by one verification. */
  ghost predicate Covers(H: HashFn, hashed: set<Bytes>, claims: seq<Claim>, claim: Claim, proof: seq<Word256>) {
    && (forall c :: c in claims ==> ClaimPreimage(c) in hashed)
    && ClaimPreimage(claim) in hashed
    && PairPreimages(H, Sort(Leaves(H, claims))) <= hashed
    && FoldPreimages(H, ClaimLeaf(H, claim), proof) <= hashed
  }

  lemma LeafHasClaim(H: HashFn, claims: seq<Claim>, v: Word256)
    requires v in Sort(Leaves(H, claims))
    ensures exists c :: c in claims && v == ClaimLeaf(H, c)
  {
    var leaves := Leaves(H, claims);
    assert v in multiset(leaves);
    var i :| 0 <= i < |leaves| && leaves[i] == v;
    assert claims[i] in claims;
  }

  /** A pair whose hash stands in the tree has both its members in the tree. */
  lemma PairMembersAreTreeValues(H: HashFn, claims: seq<Claim>, a: Word256, b: Word256, hashed: set<Bytes>)
    requires CollisionFree(H, hashed) && PairPreimage(a, b) in hashed
    requires forall c :: c in claims ==> ClaimPreimage(c) in hashed
    requires PairPreimages(H, Sort(Leaves(H, claims))) <= hashed
    requires HashPair(H, a, b) in TreeValues(H, Sort(Leaves(H, claims)))
    ensures a in TreeValues(H, Sort(Leaves(H, claims)))
  {
    var level := Sort(Leaves(H, claims));
    var v := HashPair(H, a, b);
    TreeValueIsLeafOrPair(H, level, v);
    if v in level {
      LeafHasClaim(H, claims, v);
      var c :| c in claims && v == ClaimLeaf(H, c);
      LeafIsNoPair(c, a, b);
      assert false;
    } else {
      var x, y :| x in TreeValues(H, level) && y in TreeValues(H, level) && v == HashPair(H, x, y) &&
          PairPreimage(x, y) in PairPreimages(H, level);
      PairPreimageInjective(a, b, x, y);
    }
  }

  lemma {:induction false} FoldStartsInTree(H: HashFn, claims: seq<Claim>, acc: Word256, proof: seq<Word256>,
      hashed: set<Bytes>)
    requires CollisionFree(H, hashed) && FoldPreimages(H, acc, proof) <= hashed
    requires forall c :: c in claims ==> ClaimPreimage(c) in hashed
    requires PairPreimages(H, Sort(Leaves(H, claims))) <= hashed
    requires Fold(H, acc, proof) in TreeValues(H, Sort(Leaves(H, claims)))
    ensures acc in TreeValues(H, Sort(Leaves(H, claims)))
    decreases |proof|
  {
    if proof != [] {
      assert PairPreimage(acc, proof[0]) in FoldPreimages(H, acc, proof);
      FoldStartsInTree(H, claims, HashPair(H, acc, proof[0]), proof[1..], hashed);
      PairMembersAreTreeValues(H, claims, acc, proof[0], hashed);
    }
  }

  /** Any claim accepted against a non-empty claims root is one of the committed claims. */
  lemma AcceptedClaimWasCommitted(H: HashFn, claims: seq<Claim>, claim: Claim, proof: seq<Word256>, hashed: set<Bytes>)
    requires claims != [] && DisclosureAccepted(H, ClaimsRoot(H, claims), claim, proof)
    requires CollisionFree(H, hashed) && Covers(H, hashed, claims, claim, proof)
    ensures claim in claims
  {
    var level := Sort(Leaves(H, claims));
    assert Leaves(H, claims)[0] in multiset(level);
    TopIsTreeValue(H, level);
    var leaf := ClaimLeaf(H, claim);
    FoldStartsInTree(H, claims, leaf, proof, hashed);
    TreeValueIsLeafOrPair(H, level, leaf);
    if leaf in level {
      LeafHasClaim(H, claims, leaf);
      var c :| c in claims && leaf == ClaimLeaf(H, c);
      ClaimPreimageInjective(c, claim);
    } else {
      var x, y :| x in TreeValues(H, level) && y in TreeValues(H, level) && leaf == HashPair(H, x, y) &&
          PairPreimage(x, y) in PairPreimages(H, level);
      LeafIsNoPair(claim, x, y);
      assert false;
    }
  }
}
