/**
 * The published roster (pipeline/roster-source.ts, lines 182-348, with pipeline/roster.ts): choice of the cutoff,
 * verified replay, selection, tree and final rechecks; and what a proof against the published root says about
 * the events on the source chain.
 */
module SourceRoster {
  import opened Prelude
  import opened Hashing
  import opened LifecycleReplay
  import opened SourceReplay
  import RosterTree
  import RosterProofs

  type Scheme = RosterTree.Scheme
  type Tree = RosterTree.Tree

  /** What one reader says of the chain at one moment. */
  datatype View = View(head: nat, finalized: nat, headers: nat -> Header)

  datatype Views = Views(reader: View, other: View)

  /** All that the readers return: before the scan, during it by height, and after it. */
  datatype Chain = Chain(first: Views, blocks: nat -> RawBlock, last: Views)

  datatype Options = Options(
    scheme: Scheme, deployment: Deployment, decode: Decoder, confirmations: nat,
    cutoff: Option<nat>, cutoffHash: Option<Hash>, checkpoint: Option<Progress>)

  datatype Published = Published(tree: Tree, excluded: map<Address, Reason>, checkpoint: Progress)

  // ---------- The cutoff ----------

  predicate Confirmed(v: View, height: nat, confirmations: nat) {
    height <= v.finalized <= v.head && height + confirmations <= v.head
  }

  predicate BothConfirm(v: Views, height: nat, confirmations: nat) {
    Confirmed(v.reader, height, confirmations) && Confirmed(v.other, height, confirmations)
  }

  /** The height asked for, otherwise the greatest that is final and confirmed for both readers. */
  ghost predicate IsCutoff(o: Options, v: Views, height: nat) {
    && o.confirmations >= 1 && height >= 1 && BothConfirm(v, height, o.confirmations)
    && if o.cutoff.Some? then height == o.cutoff.value
       else forall h: nat :: BothConfirm(v, h, o.confirmations) ==> h <= height
  }

  method ChooseCutoff(o: Options, v: Views) returns (height: Option<nat>)
    ensures height.Some? ==> IsCutoff(o, v, height.value)
    ensures height.None? ==> forall h: nat :: !IsCutoff(o, v, h)
  {
    if o.confirmations < 1 || v.reader.finalized > v.reader.head || v.other.finalized > v.other.head {
      return None;
    }
    var ceiling := Min(Min(v.reader.finalized, v.reader.head - o.confirmations),
                       Min(v.other.finalized, v.other.head - o.confirmations));
    var wanted := if o.cutoff.Some? then o.cutoff.value else ceiling;
    if !(1 <= wanted <= ceiling) {
      return None;
    }
    assert BothConfirm(v, wanted, o.confirmations);
    return Some(wanted);
  }

  // ---------- Start and end ----------

  function Bare(h: Header): Block {
    Block(h.hash, h.parentHash, h.timestamp, h.receiptsRoot, |h.transactions|, [])
  }

  /** Both readers name one sound header for the height. */
  predicate Agreed(v: Views, height: nat) {
    v.reader.headers(height) == v.other.headers(height) && Sound(v.reader.headers(height))
  }

  function AnchorHeight(o: Options): nat
    requires o.deployment.block >= 1
  {
    if o.checkpoint.Some? then o.checkpoint.value.height else o.deployment.block - 1
  }

  /** From the checkpoint, or from nothing before the deployment. */
  function StartOf(o: Options, c: Chain): (p: Progress)
    requires o.deployment.block >= 1
    ensures p.height == AnchorHeight(o)
  {
    if o.checkpoint.Some? then o.checkpoint.value
    else Anchor(o.deployment.block, Bare(c.first.reader.headers(AnchorHeight(o))))
  }

  predicate Startable(o: Options, c: Chain, height: nat) {
    && 1 <= o.deployment.block <= height && Agreed(c.first, height)
    && (o.cutoffHash.Some? ==> o.cutoffHash.value == c.first.reader.headers(height).hash)
    && Agreed(c.first, AnchorHeight(o))
    && (o.checkpoint.Some? ==>
          Resumable(o.checkpoint.value, Bare(c.first.reader.headers(AnchorHeight(o))), o.deployment.block, height))
  }

  predicate Unchanged(c: Chain, height: nat) {
    Agreed(c.last, height) && c.last.reader.headers(height).hash == c.first.reader.headers(height).hash
  }

  predicate StillFinal(o: Options, c: Chain, height: nat)
    requires o.deployment.block >= 1
  {
    Unchanged(c, height) && Unchanged(c, AnchorHeight(o)) && BothConfirm(c.last, height, o.confirmations)
  }

  function Raws(c: Chain, from: nat, to: nat): (r: seq<RawBlock>)
    requires from <= to
    ensures |r| == to - from
  {
    seq(to - from, i requires 0 <= i < to - from => c.blocks(from + 1 + i))
  }

  /** The last block scanned is the cutoff block. */
  predicate Reaches(raws: seq<RawBlock>, cutoff: Header) {
    raws != [] ==> raws[|raws| - 1].header.hash == cutoff.hash
  }

  function Now(c: Chain, height: nat): nat {
    c.first.reader.headers(height).timestamp
  }

  /** Progress of the verified replay up to the cutoff; none when any check of it fails. */
  function Scan(o: Options, c: Chain, height: nat): Option<Progress> {
    if !Startable(o, c, height) then None
    else
      var raws := Raws(c, AnchorHeight(o), height);
      if !Reaches(raws, c.first.reader.headers(height)) then None
      else ReplayOf(CheckerOf(o.scheme.H, o.deployment, o.decode), StartOf(o, c), raws, Now(c, height))
  }

  // ---------- The tree ----------

  function Leaf(e: Entry): RosterTree.RosterEntry {
    RosterTree.RosterEntry(e.subject, e.attrs.word, e.claimsRoot, e.evidenceHash, e.issuer)
  }

  function Leaves(order: seq<Entry>): (r: seq<RosterTree.RosterEntry>)
    ensures |r| == |order|
  {
    seq(|order|, i requires 0 <= i < |order| => Leaf(order[i]))
  }

  /** The roster in some order; the tree does not depend on which. */
  ghost predicate Enumerates(order: seq<Entry>, roster: set<Entry>) {
    && (forall e :: e in order <==> e in roster)
    && forall i, j :: 0 <= i < j < |order| ==> order[i] != order[j]
  }

  ghost predicate Publishes(s: Scheme, roster: set<Entry>, t: Tree) {
    exists order :: Enumerates(order, roster) && RosterTree.BuiltFrom(s, Leaves(order), t)
  }

  function KeyOf(s: Scheme, e: Entry): RosterTree.Key {
    RosterTree.SubjectKey(s, e.subject)
  }

  /** Keys are distinct and no sentinels, and the leaves can be counted. */
  ghost predicate CanPublish(s: Scheme, roster: set<Entry>) {
    && (forall d, e :: d in roster && e in roster && d != e ==> KeyOf(s, d) != KeyOf(s, e))
    && (forall e :: e in roster ==> KeyOf(s, e) != RosterTree.MIN_KEY && KeyOf(s, e) != RosterTree.MAX_KEY)
    && |roster| + 2 <= MAX_SAFE_INTEGER
  }

  lemma {:induction false} OrderHasAllOnce(order: seq<Entry>, roster: set<Entry>)
    requires Enumerates(order, roster)
    ensures |order| == |roster|
  {
    if order == [] {
      assert roster == {};
    } else {
      var n := |order| - 1;
      forall e ensures e in order[..n] <==> e in roster - {order[n]} {
        assert order == order[..n] + [order[n]];
      }
      OrderHasAllOnce(order[..n], roster - {order[n]});
    }
  }

  lemma {:induction false} DistinctCountOnce(ks: seq<RosterTree.Key>, k: RosterTree.Key)
    requires forall i, j :: 0 <= i < j < |ks| ==> ks[i] != ks[j]
    ensures multiset(ks)[k] <= 1
  {
    if ks != [] {
      var n := |ks| - 1;
      assert ks == ks[..n] + [ks[n]];
      DistinctCountOnce(ks[..n], k);
      assert ks[n] !in ks[..n];
    }
  }

  /** Whether the tree can be built depends on the roster alone. */
  lemma BuildableIsCanPublish(s: Scheme, order: seq<Entry>, roster: set<Entry>)
    requires Enumerates(order, roster)
    ensures RosterTree.Buildable(s, Leaves(order)) <==> CanPublish(s, roster)
  {
    OrderHasAllOnce(order, roster);
    var ks := RosterTree.KeysOf(s, Leaves(order));
    assert forall i :: 0 <= i < |order| ==> ks[i] == KeyOf(s, order[i]);
    if CanPublish(s, roster) {
      forall k ensures multiset(ks)[k] <= 1 {
        DistinctCountOnce(ks, k);
      }
    }
    if RosterTree.Buildable(s, Leaves(order)) {
      KeysNameEntries(s, order, ks);
    }
  }

  lemma KeysNameEntries(s: Scheme, order: seq<Entry>, ks: seq<RosterTree.Key>)
    requires |ks| == |order| && forall i :: 0 <= i < |order| ==> ks[i] == KeyOf(s, order[i])
    requires forall k :: multiset(ks)[k] <= 1
    requires RosterTree.MIN_KEY !in ks && RosterTree.MAX_KEY !in ks
    ensures forall d, e :: d in order && e in order && d != e ==> KeyOf(s, d) != KeyOf(s, e)
    ensures forall e :: e in order ==> KeyOf(s, e) != RosterTree.MIN_KEY && KeyOf(s, e) != RosterTree.MAX_KEY
  {
    forall d, e | d in order && e in order && d != e ensures KeyOf(s, d) != KeyOf(s, e) {
      var i: nat :| i < |order| && order[i] == d;
      var j: nat :| j < |order| && order[j] == e;
      if ks[i] == ks[j] {
        RosterTree.RepeatCountsTwice(ks, if i < j then i else j, if i < j then j else i);
      }
    }
  }

  method ListEntries(roster: set<Entry>) returns (order: seq<Entry>)
    ensures Enumerates(order, roster)
  {
    order := [];
    var todo := roster;
    while todo != {}
      invariant todo <= roster && Enumerates(order, roster - todo)
    {
      var e :| e in todo;
      order, todo := order + [e], todo - {e};
    }
  }

  method PublishTree(s: Scheme, roster: set<Entry>) returns (r: Option<Tree>)
    ensures r.Some? <==> CanPublish(s, roster)
    ensures r.Some? ==> Publishes(s, roster, r.value)
  {
    var order := ListEntries(roster);
    BuildableIsCanPublish(s, order, roster);
    var tree := RosterTree.BuildRoster(s, Leaves(order));
    return if tree.Ok? then Some(tree.value) else None;
  }

  /** What a successful run publishes for the cutoff. */
  ghost predicate IsPublication(o: Options, c: Chain, height: nat, r: Published) {
    && IsCutoff(o, c.first, height) && Scan(o, c, height) == Some(r.checkpoint) && StillFinal(o, c, height)
    && r.excluded == Excluded(r.checkpoint, Now(c, height))
    && Publishes(o.scheme, Roster(r.checkpoint, Now(c, height)), r.tree)
  }

  ghost predicate CannotPublish(o: Options, c: Chain, height: nat) {
    IsCutoff(o, c.first, height) && Scan(o, c, height).Some? && StillFinal(o, c, height) ==>
      !CanPublish(o.scheme, Roster(Scan(o, c, height).value, Now(c, height)))
  }

  method BuildSourceRoster(o: Options, c: Chain) returns (r: Option<Published>)
    ensures r.Some? ==> IsPublication(o, c, r.value.checkpoint.height, r.value)
    ensures r.None? ==> forall height: nat :: CannotPublish(o, c, height)
  {
    var cutoff := ChooseCutoff(o, c.first);
    if cutoff.None? {
      return None;
    }
    var height, now := cutoff.value, Now(c, cutoff.value);
    CutoffIsOne(o, c.first, height);
    var end := RunScan(o, c, height);
    if end.None? || !StillFinal(o, c, height) {
      return None;
    }
    ScanEndsAtCutoff(o, c, height);
    var entries, excluded := SelectEntries(end.value, now);
    var tree := PublishTree(o.scheme, entries);
    if tree.None? {
      return None;
    }
    return Some(Published(tree.value, excluded, end.value));
  }

  lemma CutoffIsOne(o: Options, v: Views, height: nat)
    requires IsCutoff(o, v, height)
    ensures forall h: nat :: IsCutoff(o, v, h) ==> h == height
  {
  }

  method RunScan(o: Options, c: Chain, height: nat) returns (r: Option<Progress>)
    ensures r == Scan(o, c, height)
  {
    if !Startable(o, c, height) {
      return None;
    }
    var raws := Raws(c, AnchorHeight(o), height);
    if !Reaches(raws, c.first.reader.headers(height)) {
      return None;
    }
    r := ReplayVerified(o.scheme.H, o.deployment, o.decode, StartOf(o, c), raws, Now(c, height));
  }

  lemma ScanEndsAtCutoff(o: Options, c: Chain, height: nat)
    requires Scan(o, c, height).Some?
    ensures Scan(o, c, height).value.height == height
  {
    var check, raws := CheckerOf(o.scheme.H, o.deployment, o.decode), Raws(c, AnchorHeight(o), height);
    ReplayFoldsHistory(StartOf(o, c), Verified(check, AnchorHeight(o), raws).value, Now(c, height));
  }

  // ---------- What a published root proves ----------

  /** The progress is that of the event history h, over however many resumed runs. */
  ghost predicate Follows(p: Progress, h: seq<Stamped>) {
    p.standings == FoldStandings(map[], h) && p.cutoffs == FoldCutoffs(map[], h)
  }

  /** The history that a scan adds to the one before its start. */
  lemma ScanExtendsHistory(o: Options, c: Chain, height: nat, before: seq<Stamped>)
    requires Scan(o, c, height).Some?
    requires if o.checkpoint.Some? then Follows(o.checkpoint.value, before) else before == []
    ensures var check, raws := CheckerOf(o.scheme.H, o.deployment, o.decode), Raws(c, AnchorHeight(o), height);
            Follows(Scan(o, c, height).value,
                    before + History(AnchorHeight(o), Verified(check, AnchorHeight(o), raws).value))
  {
    var check, raws := CheckerOf(o.scheme.H, o.deployment, o.decode), Raws(c, AnchorHeight(o), height);
    var blocks := Verified(check, AnchorHeight(o), raws).value;
    ReplayFoldsHistory(StartOf(o, c), blocks, Now(c, height));
    FoldsCompose(map[], map[], before, History(AnchorHeight(o), blocks));
  }

  /** Some entry of the subject is entitled by the history. */
  ghost predicate HasEntitled(h: seq<Stamped>, subject: Address, now: nat) {
    exists e: Entry :: e.subject == subject && Entitled(h, e, now)
  }

  lemma LeafIsListed(order: seq<Entry>, roster: set<Entry>, e: Entry)
    requires Enumerates(order, roster)
    ensures e in roster ==> Leaf(e) in Leaves(order)
  {
    if e in roster {
      var i: nat :| i < |order| && order[i] == e;
      assert Leaves(order)[i] == Leaf(e);
    }
  }

  lemma ListedLeaf(order: seq<Entry>, x: RosterTree.RosterEntry) returns (e: Entry)
    requires x in Leaves(order)
    ensures e in order && x == Leaf(e)
  {
    var i: nat :| i < |order| && Leaves(order)[i] == x;
    e := order[i];
  }

  /** The strings hashed for the published tree. */
  ghost predicate TreeKnown(s: Scheme, roster: set<Entry>, t: Tree, hashed: set<Bytes>) {
    && CollisionFree(s.H, hashed)
    && t.leaves != [] && |t.keys| == |t.marks| && RosterProofs.TreePreimages(s, t) <= hashed
    && forall e :: e in roster ==> RosterProofs.EntryPreimages(s, Leaf(e)) <= hashed
  }

  /** A proof accepted against the published root is of an entry that the source events entitle. */
  lemma ProvenIsEntitled(s: Scheme, p: Progress, h: seq<Stamped>, now: nat, t: Tree, x: RosterTree.RosterEntry,
                         proof: RosterTree.Proof, hashed: set<Bytes>)
    requires Follows(p, h) && Publishes(s, Roster(p, now), t) && TreeKnown(s, Roster(p, now), t, hashed)
    requires var leaf := RosterTree.LeafOf(s, RosterTree.SubjectKey(s, x.subject), RosterTree.MarkHash(s, x));
             RosterTree.Accepts(s, t.root, leaf, proof) && RosterProofs.ProofPreimages(s, leaf, proof) <= hashed
    requires RosterTree.Tagged(0, RosterTree.SubjectKey(s, x.subject), RosterTree.MarkHash(s, x)) in hashed
    requires RosterProofs.EntryPreimages(s, x) <= hashed
    requires RosterTree.SubjectKey(s, x.subject) !in {RosterTree.MIN_KEY, RosterTree.MAX_KEY}
    ensures exists e: Entry :: Leaf(e) == x && Entitled(h, e, now)
  {
    var order :| Enumerates(order, Roster(p, now)) && RosterTree.BuiltFrom(s, Leaves(order), t);
    forall d | d in Leaves(order) ensures RosterProofs.EntryPreimages(s, d) <= hashed {
      var e := ListedLeaf(order, d);
    }
    RosterProofs.AcceptedEntryWasCommitted(s, Leaves(order), t, x, proof, hashed);
    var e := ListedLeaf(order, x);
    RosterMembers(p, h, e, now);
  }

  /** A gap accepted against the published root is of a subject that the source events entitle to nothing. */
  lemma GapIsNotEntitled(s: Scheme, p: Progress, h: seq<Stamped>, now: nat, t: Tree, subject: Address,
                         gap: RosterTree.GapProof, hashed: set<Bytes>)
    requires Follows(p, h) && Publishes(s, Roster(p, now), t) && TreeKnown(s, Roster(p, now), t, hashed)
    requires RosterTree.AcceptsGap(s, t.root, subject, gap) && RosterProofs.GapPreimages(s, gap) <= hashed
    ensures !HasEntitled(h, subject, now)
  {
    var order :| Enumerates(order, Roster(p, now)) && RosterTree.BuiltFrom(s, Leaves(order), t);
    RosterProofs.AcceptedGapMeansAbsent(s, Leaves(order), t, subject, gap, hashed);
    forall e: Entry | e.subject == subject ensures !Entitled(h, e, now) {
      RosterMembers(p, h, e, now);
      LeafIsListed(order, Roster(p, now), e);
    }
  }

  /** Every entitled entry has a proof that is accepted against the published root. */
  lemma EntitledIsProvable(s: Scheme, p: Progress, h: seq<Stamped>, now: nat, t: Tree, e: Entry)
    returns (proof: RosterTree.Proof)
    requires Follows(p, h) && Publishes(s, Roster(p, now), t) && Entitled(h, e, now)
    ensures RosterTree.Accepts(s, t.root, RosterTree.LeafOf(s, KeyOf(s, e), RosterTree.MarkHash(s, Leaf(e))), proof)
  {
    var order :| Enumerates(order, Roster(p, now)) && RosterTree.BuiltFrom(s, Leaves(order), t);
    RosterMembers(p, h, e, now);
    LeafIsListed(order, Roster(p, now), e);
    proof := ListedIsProvable(s, Leaves(order), t, Leaf(e));
  }

  lemma ListedIsProvable(s: Scheme, entries: seq<RosterTree.RosterEntry>, t: Tree, x: RosterTree.RosterEntry)
    returns (proof: RosterTree.Proof)
    requires RosterTree.BuiltFrom(s, entries, t) && x in entries
    ensures RosterTree.Accepts(
              s, t.root, RosterTree.LeafOf(s, RosterTree.SubjectKey(s, x.subject), RosterTree.MarkHash(s, x)), proof)
  {
    assert x in multiset(t.entries);
    var i: nat :| i < |t.entries| && t.entries[i] == x;
    RosterProofs.GeneratedProofIsAccepted(s, entries, t, i + 1);
    proof := RosterTree.Proof(i + 1, |t.leaves|, RosterTree.Siblings(s, t.leaves, i + 1));
  }

  /** And every other subject whose key is no sentinel has an accepted gap. */
  lemma NotEntitledIsProvable(s: Scheme, p: Progress, h: seq<Stamped>, now: nat, t: Tree, subject: Address,
                              hashed: set<Bytes>) returns (gap: RosterTree.GapProof)
    requires Follows(p, h) && Publishes(s, Roster(p, now), t) && TreeKnown(s, Roster(p, now), t, hashed)
    requires RosterTree.SubjectPreimage(s, subject) in hashed && !HasEntitled(h, subject, now)
    requires RosterTree.SubjectKey(s, subject) !in {RosterTree.MIN_KEY, RosterTree.MAX_KEY}
    ensures RosterTree.AcceptsGap(s, t.root, subject, gap)
  {
    var order :| Enumerates(order, Roster(p, now)) && RosterTree.BuiltFrom(s, Leaves(order), t);
    KeyIsMissing(s, p, h, now, t, subject, order, hashed);
    var lo := GapAround(s, Leaves(order), t, RosterTree.SubjectKey(s, subject));
    RosterProofs.GeneratedGapIsAccepted(s, Leaves(order), t, subject, lo);
    gap := RosterProofs.GapProofAt(s, t, lo);
  }

  lemma KeyIsMissing(s: Scheme, p: Progress, h: seq<Stamped>, now: nat, t: Tree, subject: Address, order: seq<Entry>,
                     hashed: set<Bytes>)
    requires Follows(p, h) && Enumerates(order, Roster(p, now)) && RosterTree.BuiltFrom(s, Leaves(order), t)
    requires TreeKnown(s, Roster(p, now), t, hashed)
    requires RosterTree.SubjectPreimage(s, subject) in hashed && !HasEntitled(h, subject, now)
    requires RosterTree.SubjectKey(s, subject) !in {RosterTree.MIN_KEY, RosterTree.MAX_KEY}
    ensures RosterTree.SubjectKey(s, subject) !in t.keys
  {
    var key := RosterTree.SubjectKey(s, subject);
    if key in t.keys {
      var i: nat :| i < |t.keys| && t.keys[i] == key;
      var d := RosterProofs.EntryAtIndex(s, Leaves(order), t, i);
      var e := ListedLeaf(order, d);
      assert RosterTree.SubjectPreimage(s, d.subject) in RosterProofs.EntryPreimages(s, Leaf(e));
      RosterProofs.SubjectPreimageInjective(s, d.subject, subject);
      RosterMembers(p, h, e, now);
      assert false;
    }
  }

  lemma GapAround(s: Scheme, entries: seq<RosterTree.RosterEntry>, t: Tree, key: RosterTree.Key) returns (lo: nat)
    requires RosterTree.BuiltFrom(s, entries, t) && key !in t.keys
    ensures RosterProofs.GapAt(t, key, lo)
  {
    var hi: nat := 0;
    while hi < |t.keys| && t.keys[hi] <= key
      invariant hi <= |t.keys| && forall j :: 0 <= j < hi ==> t.keys[j] <= key
    {
      hi := hi + 1;
    }
    RosterProofs.GreaterKeyBoundsGap(s, entries, t, key, hi);
    lo := hi - 1;
  }
}
