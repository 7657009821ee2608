/**
 * Replay of source lifecycle events into a roster, cold or from a checkpoint
 * (pipeline/roster-source.ts, lines 51-57, 143-166 and 248-333). Blocks are those both readers agree
 * on; their logs are the source contract's, already decoded.
 */
module LifecycleReplay {
  import opened Prelude
  import opened Hashing

  /** The zero address and the zero hash are 0. */
  type Hash = Word256

  /** A packed credential word: whether its fixed fields are acceptable, and its two times. */
  datatype Attrs = Attrs(word: Word256, wellFormed: bool, issuedAt: nat, expiry: nat)

  predicate ValidAt(a: Attrs, now: nat) {
    a.wellFormed && a.issuedAt > 0 && a.expiry > a.issuedAt && a.issuedAt <= now < a.expiry
  }

  datatype Event =
    | Issued(subject: Address, attrs: Attrs, claimsRoot: Hash, evidenceHash: Hash, issuer: Address)
    | KeyedIssued(subject: Address, attrs: Attrs, claimsRoot: Hash, evidenceHash: Hash, issuer: Address, keyEpoch: nat)
    | Revoked(subject: Address)
    | Denied(subject: Address)
    | Corrected(subject: Address, revision: nat, correctionId: nat, reasonHash: Hash, proposer: Address,
    approver: Address)
    | Compromised(issuer: Address, keyEpoch: nat, lastTrustedBlock: nat, reasonHash: Hash)
    | Other

  datatype Entry = Entry(subject: Address, attrs: Attrs, claimsRoot: Hash, evidenceHash: Hash, issuer: Address)

  datatype Issuance = Issuance(entry: Entry, keyEpoch: nat, block: nat)

  /** What is known of one subject; the three issuance fields of the program are set and cleared together. */
  datatype Standing = Standing(denied: bool, revoked: bool, issued: Option<Issuance>)

  datatype IssuerKey = IssuerKey(issuer: Address, epoch: nat)

  type Standings = map<Address, Standing>
  type Cutoffs = map<IssuerKey, nat>

  /** An event with the height and timestamp of its block. */
  datatype Stamped = Stamped(height: nat, timestamp: nat, event: Event)

  datatype Block = Block(hash: Hash, parentHash: Hash, timestamp: nat, receiptsRoot: Hash, receipts: nat,
      logs: seq<Event>)

  /** Running digests, kept symbolic: equal digests were fed the same items. */
  datatype Digest = Start(anchor: Hash) | WithBlock(prev: Digest, height: nat, block: Block)
      | WithLog(prev: Digest, event: Event)

  /** Everything the fold carries from block to block; with its header fields this is the checkpoint. */
  datatype Progress = Progress(
    height: nat, blockHash: Hash, timestamp: nat, receiptsRoot: Hash,
    receipts: nat, sourceLogs: nat, chainDigest: Digest, logsDigest: Digest,
    standings: Standings, cutoffs: Cutoffs)

  // ---------- One event ----------

  predicate Acceptable(s: Stamped) {
    match s.event
    case Other => true
    case Compromised(issuer, epoch, last, reason) => issuer != 0 && epoch >= 1 && last < s.height && reason != 0
    case Issued(subject, attrs, _, _, issuer) => subject != 0 && ValidAt(attrs, s.timestamp) && issuer != 0
    case KeyedIssued(subject, attrs, _, _, issuer, epoch) => subject != 0 && ValidAt(attrs, s.timestamp) &&
        issuer != 0 && epoch >= 1
    case Revoked(subject) => subject != 0
    case Denied(subject) => subject != 0
    case Corrected(subject, revision, id, reason, proposer, approver) =>
      subject != 0 && revision >= 1 && id != 0 && reason != 0 && proposer != 0 && approver != 0 && proposer != approver
  }

  function StandingOf(m: Standings, subject: Address): Standing {
    if subject in m then m[subject] else Standing(false, false, None)
  }

  function StepStandings(m: Standings, s: Stamped): Standings {
    match s.event
    case Issued(subject, attrs, claims, evidence, issuer) =>
      m[subject := StandingOf(m, subject).(revoked := false,
          issued := Some(Issuance(Entry(subject, attrs, claims, evidence, issuer), 0, s.height)))]
    case KeyedIssued(subject, attrs, claims, evidence, issuer, epoch) =>
      m[subject := StandingOf(m, subject).(revoked := false,
          issued := Some(Issuance(Entry(subject, attrs, claims, evidence, issuer), epoch, s.height)))]
    case Revoked(subject) => m[subject := StandingOf(m, subject).(revoked := true)]
    case Denied(subject) => m[subject := StandingOf(m, subject).(denied := true)]
    case Corrected(subject, _, _, _, _, _) => m[subject := Standing(false, true, None)]
    case Compromised(_, _, _, _) => m
    case Other => m
  }

  function StepCutoffs(c: Cutoffs, s: Stamped): Cutoffs {
    match s.event
    case Compromised(issuer, epoch, last, _) =>
      var key := IssuerKey(issuer, epoch);
      c[key := if key in c then Min(c[key], last) else last]
    case _ => c
  }

  // ---------- The fold over blocks ----------

  function Stamp(logs: seq<Event>, height: nat, timestamp: nat): seq<Stamped> {
    seq(|logs|, i requires 0 <= i < |logs| => Stamped(height, timestamp, logs[i]))
  }

  function FoldStandings(m: Standings, h: seq<Stamped>): Standings {
    if h == [] then m else StepStandings(FoldStandings(m, h[..|h| - 1]), h[|h| - 1])
  }

  function FoldCutoffs(c: Cutoffs, h: seq<Stamped>): Cutoffs {
    if h == [] then c else StepCutoffs(FoldCutoffs(c, h[..|h| - 1]), h[|h| - 1])
  }

  function FoldLogDigest(d: Digest, logs: seq<Event>): Digest {
    if logs == [] then d else WithLog(FoldLogDigest(d, logs[..|logs| - 1]), logs[|logs| - 1])
  }

  predicate Extends(p: Progress, b: Block, cutoffTimestamp: nat) {
    && b.parentHash == p.blockHash && p.timestamp <= b.timestamp <= cutoffTimestamp
    && forall i :: 0 <= i < |b.logs| ==> Acceptable(Stamped(p.height + 1, b.timestamp, b.logs[i]))
  }

  function AfterBlock(p: Progress, b: Block): Progress {
    var stamped := Stamp(b.logs, p.height + 1, b.timestamp);
    Progress(p.height + 1, b.hash, b.timestamp, b.receiptsRoot, p.receipts + b.receipts, p.sourceLogs + |b.logs|,
             WithBlock(p.chainDigest, p.height + 1, b), FoldLogDigest(p.logsDigest, b.logs),
             FoldStandings(p.standings, stamped), FoldCutoffs(p.cutoffs, stamped))
  }

  /** Progress after all blocks, or None when one of them is refused. */
  function Replay(p: Progress, blocks: seq<Block>, cutoffTimestamp: nat): Option<Progress> {
    if blocks == [] then Some(p)
    else
      match Replay(p, blocks[..|blocks| - 1], cutoffTimestamp)
      case None => None
      case Some(q) =>
        var b := blocks[|blocks| - 1];
        if Extends(q, b, cutoffTimestamp) then Some(AfterBlock(q, b)) else None
  }

  /** Progress after the first i logs of the next block. */
  ghost function AfterLogs(p: Progress, b: Block, i: nat): Progress
    requires i <= |b.logs|
  {
    var h := Stamp(b.logs, p.height + 1, b.timestamp)[..i];
    p.(sourceLogs := p.sourceLogs + i, logsDigest := FoldLogDigest(p.logsDigest, b.logs[..i]),
       standings := FoldStandings(p.standings, h), cutoffs := FoldCutoffs(p.cutoffs, h))
  }

  lemma OneMoreLog(p: Progress, b: Block, i: nat)
    requires i < |b.logs|
    ensures var q, s := AfterLogs(p, b, i), Stamped(p.height + 1, b.timestamp, b.logs[i]);
            AfterLogs(p, b, i + 1) == q.(sourceLogs := q.sourceLogs + 1, logsDigest := WithLog(q.logsDigest, b.logs[i]),
                standings := StepStandings(q.standings, s), cutoffs := StepCutoffs(q.cutoffs, s))
  {
    var h := Stamp(b.logs, p.height + 1, b.timestamp);
    assert b.logs[..i + 1][..i] == b.logs[..i] && h[..i + 1][..i] == h[..i];
  }

  method ReplayLogs(p: Progress, b: Block) returns (r: Option<Progress>)
    ensures r.Some? <==> forall i :: 0 <= i < |b.logs| ==> Acceptable(Stamped(p.height + 1, b.timestamp, b.logs[i]))
    ensures r.Some? ==>
              var h := Stamp(b.logs, p.height + 1, b.timestamp);
              r.value == p.(sourceLogs := p.sourceLogs + |b.logs|, logsDigest := FoldLogDigest(p.logsDigest, b.logs),
                            standings := FoldStandings(p.standings, h), cutoffs := FoldCutoffs(p.cutoffs, h))
  {
    var q := p;
    for i := 0 to |b.logs|
      invariant forall j :: 0 <= j < i ==> Acceptable(Stamped(p.height + 1, b.timestamp, b.logs[j]))
      invariant q == AfterLogs(p, b, i)
    {
      var s := Stamped(p.height + 1, b.timestamp, b.logs[i]);
      if !Acceptable(s) {
        return None;
      }
      OneMoreLog(p, b, i);
      q := q.(sourceLogs := q.sourceLogs + 1, logsDigest := WithLog(q.logsDigest, b.logs[i]),
              standings := StepStandings(q.standings, s), cutoffs := StepCutoffs(q.cutoffs, s));
    }
    ghost var h := Stamp(b.logs, p.height + 1, b.timestamp);
    assert b.logs[..|b.logs|] == b.logs && h[..|h|] == h;
    return Some(q);
  }

  // ---------- Exclusion ----------

  datatype Reason = PermanentDenial | LatestIsRevoke | NeverIssued | IssuedAfterCompromise | Expired

  /** The program's reason chain: denial, revocation, no issuance, compromised key, expiry. */
  function Exclusion(s: Standing, cutoffs: Cutoffs, now: nat): Option<Reason> {
    if s.denied then Some(PermanentDenial)
    else if s.revoked then Some(LatestIsRevoke)
    else if s.issued.None? then Some(NeverIssued)
    else
      var i := s.issued.value;
      var key := IssuerKey(i.entry.issuer, i.keyEpoch);
      if i.keyEpoch != 0 && key in cutoffs && i.block > cutoffs[key] then Some(IssuedAfterCompromise)
      else if !ValidAt(i.entry.attrs, now) then Some(Expired)
      else None
  }

  function Excluded(p: Progress, now: nat): map<Address, Reason> {
    map subject | subject in p.standings && Exclusion(p.standings[subject], p.cutoffs, now).Some?
      :: Exclusion(p.standings[subject], p.cutoffs, now).value
  }

  function Included(p: Progress, now: nat): set<Address> {
    set subject | subject in p.standings && Exclusion(p.standings[subject], p.cutoffs, now).None?
  }

  /** Entries that go into the roster. */
  function Roster(p: Progress, now: nat): set<Entry> {
    set subject | subject in Included(p, now) :: p.standings[subject].issued.value.entry
  }

  method SelectEntries(p: Progress, now: nat) returns (entries: set<Entry>, excluded: map<Address, Reason>)
    ensures entries == Roster(p, now) && excluded == Excluded(p, now)
  {
    entries, excluded := {}, map[];
    var todo := p.standings.Keys;
    ghost var kept: set<Address> := {};
    while todo != {}
      invariant todo <= p.standings.Keys
      invariant kept == Included(p, now) - todo
      invariant entries == set subject | subject in kept :: p.standings[subject].issued.value.entry
      invariant excluded == Excluded(p, now) - todo
    {
      var subject :| subject in todo;
      var reason := Exclusion(p.standings[subject], p.cutoffs, now);
      if reason.Some? {
        excluded := excluded[subject := reason.value];
      } else {
        entries, kept := entries + {p.standings[subject].issued.value.entry}, kept + {subject};
      }
      todo := todo - {subject};
    }
    assert kept == Included(p, now);
  }

  // ---------- Checkpoints ----------

  predicate IssuancesAdmissible(m: Standings, deploymentBlock: nat) {
    forall subject :: subject in m && m[subject].issued.Some? ==>
      m[subject].issued.value.entry.subject == subject && m[subject].issued.value.block >= deploymentBlock
  }

  /** Conditions checked before a saved checkpoint is resumed. */
  predicate CheckpointAdmissible(p: Progress, deploymentBlock: nat, cutoffHeight: nat) {
    && deploymentBlock <= p.height <= cutoffHeight && p.timestamp >= 1
    && IssuancesAdmissible(p.standings, deploymentBlock)
    && (forall key :: key in p.cutoffs ==> key.epoch >= 1)
  }

  function Anchor(deploymentBlock: nat, anchor: Block): Progress
    requires deploymentBlock >= 1
  {
    Progress(deploymentBlock - 1, anchor.hash, anchor.timestamp, anchor.receiptsRoot, 0, 0, Start(anchor.hash),
        Start(0), map[], map[])
  }

  /** The anchor block must still be the one the checkpoint names. */
  predicate Resumable(checkpoint: Progress, anchor: Block, deploymentBlock: nat, cutoffHeight: nat) {
    && CheckpointAdmissible(checkpoint, deploymentBlock, cutoffHeight)
    && anchor.hash == checkpoint.blockHash && anchor.timestamp == checkpoint.timestamp &&
        anchor.receiptsRoot == checkpoint.receiptsRoot
  }

  // ---------- Resuming ----------

  /** Later blocks need no more than the progress after the earlier ones. */
  lemma {:induction false} ReplayComposes(p: Progress, a: seq<Block>, b: seq<Block>, now: nat)
    ensures Replay(p, a + b, now) == match Replay(p, a, now) case None => None case Some(q) => Replay(q, b, now)
  {
    if b == [] {
      assert a + b == a;
    } else {
      var n := |b| - 1;
      assert (a + b)[..|a + b| - 1] == a + b[..n] && (a + b)[|a + b| - 1] == b[n];
      ReplayComposes(p, a, b[..n], now);
    }
  }

  /** The cutoff timestamp only ever refuses blocks; progress does not depend on it. */
  lemma {:induction false} CutoffOnlyRefuses(p: Progress, blocks: seq<Block>, now: nat, now': nat)
    requires Replay(p, blocks, now).Some? && Replay(p, blocks, now').Some?
    ensures Replay(p, blocks, now) == Replay(p, blocks, now')
  {
    if blocks != [] {
      CutoffOnlyRefuses(p, blocks[..|blocks| - 1], now, now');
    }
  }

  /**
   * Whenever the cold replay to the later cutoff succeeds and so does the replay to the earlier one,
   * resuming from the earlier checkpoint gives the same states, digests, counters and roster.
   */
  lemma ResumeEqualsCold(p: Progress, early: seq<Block>, late: seq<Block>, earlyNow: nat, now: nat)
    requires Replay(p, early, earlyNow).Some? && Replay(p, early + late, now).Some?
    ensures var checkpoint := Replay(p, early, earlyNow).value;
            && Replay(checkpoint, late, now) == Replay(p, early + late, now)
            && Roster(Replay(checkpoint, late, now).value, now) == Roster(Replay(p, early + late, now).value, now)
  {
    ReplayComposes(p, early, late, now);
    CutoffOnlyRefuses(p, early, earlyNow, now);
  }

  /** Conversely a resumed replay of at least one block that succeeds is the tail of a cold one. */
  lemma ResumeImpliesCold(p: Progress, early: seq<Block>, late: seq<Block>, earlyNow: nat, now: nat)
    requires late != [] && Replay(p, early, earlyNow).Some? && Replay(Replay(p, early, earlyNow).value, late, now).Some?
    ensures Replay(p, early + late, now) == Replay(Replay(p, early, earlyNow).value, late, now)
  {
    ReplayComposes(p, early, late, now);
    EarlierCutoff(p, early, earlyNow, now);
    TimesAscend(Replay(p, early, earlyNow).value, late, now);
    TimesAscend(p, early, earlyNow);
    CutoffOnlyRefuses(p, early, earlyNow, now);
  }

  lemma {:induction false} TimesAscend(p: Progress, blocks: seq<Block>, now: nat)
    requires Replay(p, blocks, now).Some?
    ensures forall i :: 0 <= i < |blocks| ==>
              p.timestamp <= blocks[i].timestamp <= Replay(p, blocks, now).value.timestamp
    ensures p.timestamp <= Replay(p, blocks, now).value.timestamp
    ensures blocks != [] ==> Replay(p, blocks, now).value.timestamp <= now
  {
    if blocks != [] {
      TimesAscend(p, blocks[..|blocks| - 1], now);
    }
  }

  lemma {:induction false} EarlierCutoff(p: Progress, blocks: seq<Block>, now: nat, now': nat)
    requires Replay(p, blocks, now).Some?
    ensures Replay(p, blocks, now').Some? <==> forall i :: 0 <= i < |blocks| ==> blocks[i].timestamp <= now'
  {
    if blocks != [] {
      var n := |blocks| - 1;
      EarlierCutoff(p, blocks[..n], now, now');
      if Replay(p, blocks[..n], now').Some? {
        CutoffOnlyRefuses(p, blocks[..n], now, now');
      }
    }
  }

  // ---------- What the replay computes, stated over the event history ----------

  /** Stamped events of the blocks, in order. */
  ghost function History(height: nat, blocks: seq<Block>): seq<Stamped> {
    if blocks == [] then []
    else
      var n := |blocks| - 1;
      History(height, blocks[..n]) + Stamp(blocks[n].logs, height + |blocks|, blocks[n].timestamp)
  }

  lemma {:induction false} FoldsCompose(m: Standings, c: Cutoffs, a: seq<Stamped>, b: seq<Stamped>)
    ensures FoldStandings(m, a + b) == FoldStandings(FoldStandings(m, a), b)
    ensures FoldCutoffs(c, a + b) == FoldCutoffs(FoldCutoffs(c, a), b)
  {
    if b == [] {
      assert a + b == a;
    } else {
      var n := |b| - 1;
      assert (a + b)[..|a + b| - 1] == a + b[..n];
      FoldsCompose(m, c, a, b[..n]);
    }
  }

  lemma {:induction false} ReplayFoldsHistory(p: Progress, blocks: seq<Block>, now: nat)
    requires Replay(p, blocks, now).Some?
    ensures var q := Replay(p, blocks, now).value;
            && q.standings == FoldStandings(p.standings, History(p.height, blocks))
            && q.cutoffs == FoldCutoffs(p.cutoffs, History(p.height, blocks))
            && q.height == p.height + |blocks|
  {
    if blocks != [] {
      var n := |blocks| - 1;
      ReplayFoldsHistory(p, blocks[..n], now);
      BlockFolds(p, History(p.height, blocks[..n]), Replay(p, blocks[..n], now).value, blocks[n]);
    }
  }

  lemma BlockFolds(p: Progress, h: seq<Stamped>, q: Progress, b: Block)
    requires q.standings == FoldStandings(p.standings, h) && q.cutoffs == FoldCutoffs(p.cutoffs, h)
    ensures var more := h + Stamp(b.logs, q.height + 1, b.timestamp);
            && AfterBlock(q, b).standings == FoldStandings(p.standings, more)
            && AfterBlock(q, b).cutoffs == FoldCutoffs(p.cutoffs, more)
  {
    FoldsCompose(p.standings, p.cutoffs, h, Stamp(b.logs, q.height + 1, b.timestamp));
  }

  lemma {:induction false} ReplayedEventsAcceptable(p: Progress, blocks: seq<Block>, now: nat)
    requires Replay(p, blocks, now).Some?
    ensures forall s :: s in History(p.height, blocks) ==> Acceptable(s)
  {
    if blocks != [] {
      var n := |blocks| - 1;
      ReplayedEventsAcceptable(p, blocks[..n], now);
      ReplayFoldsHistory(p, blocks[..n], now);
      forall s | s in Stamp(blocks[n].logs, p.height + |blocks|, blocks[n].timestamp) ensures Acceptable(s) {
      }
    }
  }

  predicate Decides(e: Event, subject: Address) {
    (e.Issued? || e.KeyedIssued? || e.Revoked? || e.Corrected?) && e.subject == subject
  }

  /** The last event at or before position k that issues to, revokes or corrects the subject. */
  ghost predicate LastDecision(h: seq<Stamped>, subject: Address, k: nat) {
    k < |h| && Decides(h[k].event, subject) && forall j :: k < j < |h| ==> !Decides(h[j].event, subject)
  }

  /** A denial not followed by a correction. */
  ghost predicate StandsDenied(h: seq<Stamped>, subject: Address) {
    exists k: nat :: k < |h| && h[k].event == Denied(subject)
                     && forall j :: k < j < |h| ==> !(h[j].event.Corrected? && h[j].event.subject == subject)
  }

  ghost function IssuanceOf(s: Stamped): Issuance
    requires s.event.Issued? || s.event.KeyedIssued?
  {
    var e := s.event;
    Issuance(Entry(e.subject, e.attrs, e.claimsRoot, e.evidenceHash, e.issuer), if e.KeyedIssued? then e.keyEpoch
        else 0, s.height)
  }

  lemma {:induction false} DeniedIsDeclarative(h: seq<Stamped>, subject: Address)
    ensures StandingOf(FoldStandings(map[], h), subject).denied <==> StandsDenied(h, subject)
  {
    if h != [] {
      var n := |h| - 1;
      DeniedIsDeclarative(h[..n], subject);
      var e := h[n].event;
      if e == Denied(subject) {
        assert h[n].event == Denied(subject);
      } else if e.Corrected? && e.subject == subject {
      } else {
        if StandsDenied(h[..n], subject) {
          var k: nat :| k < n && h[..n][k].event == Denied(subject)
                        && forall j :: k < j < n ==>
                             !(h[..n][j].event.Corrected? && h[..n][j].event.subject == subject);
          assert h[k].event == Denied(subject);
        }
        if StandsDenied(h, subject) {
          var k: nat :| k < |h| && h[k].event == Denied(subject)
                        && forall j :: k < j < |h| ==> !(h[j].event.Corrected? && h[j].event.subject == subject);
          assert h[..n][k].event == Denied(subject);
        }
      }
    }
  }

  /** Revocation and issuance follow the last deciding event. */
  lemma {:induction false} DecisionIsDeclarative(h: seq<Stamped>, subject: Address)
    ensures var s := StandingOf(FoldStandings(map[], h), subject);
            && (forall k: nat :: LastDecision(h, subject, k) ==>
                  if h[k].event.Issued? || h[k].event.KeyedIssued? then !s.revoked &&
                      s.issued == Some(IssuanceOf(h[k])) else s.revoked)
            && ((forall k: nat :: !LastDecision(h, subject, k)) ==> !s.revoked && s.issued.None?)
  {
    if h != [] {
      var n := |h| - 1;
      DecisionIsDeclarative(h[..n], subject);
      if Decides(h[n].event, subject) {
        assert LastDecision(h, subject, n);
      } else {
        forall k: nat ensures LastDecision(h, subject, k) <==> LastDecision(h[..n], subject, k) {
          assert k < n ==> h[..n][k] == h[k];
        }
      }
    }
  }

  /** The saved cutoff of an issuer key is the least over its compromise events. */
  lemma {:induction false} CutoffIsLeast(h: seq<Stamped>, key: IssuerKey, block: nat)
    ensures var c := FoldCutoffs(map[], h);
            (key in c && block > c[key]) <==>
            exists k: nat :: k < |h| && CompromisedBefore(h[k].event, key, block)
  {
    if h != [] {
      var n := |h| - 1;
      CutoffIsLeast(h[..n], key, block);
      if exists k: nat :: k < n && CompromisedBefore(h[..n][k].event, key, block) {
        var k: nat :| k < n && CompromisedBefore(h[..n][k].event, key, block);
        assert CompromisedBefore(h[k].event, key, block);
      }
      if exists k: nat :: k < |h| && CompromisedBefore(h[k].event, key, block) {
        var k: nat :| k < |h| && CompromisedBefore(h[k].event, key, block);
        if k < n { assert CompromisedBefore(h[..n][k].event, key, block); }
      }
    }
  }

  ghost predicate CompromisedBefore(e: Event, key: IssuerKey, block: nat) {
    e.Compromised? && e.issuer == key.issuer && e.keyEpoch == key.epoch && e.lastTrustedBlock < block
  }

  /**
   * Who is in the roster, said without the fold: no denial after the last correction, an issuance as
   * the latest decision, no compromise of its key that trusts only earlier blocks, and validity at the
   * cutoff.
   */
  ghost predicate Entitled(h: seq<Stamped>, entry: Entry, now: nat) {
    && !StandsDenied(h, entry.subject)
    && ValidAt(entry.attrs, now)
    && exists k: nat ::
         && LastDecision(h, entry.subject, k) && (h[k].event.Issued? || h[k].event.KeyedIssued?)
         && IssuanceOf(h[k]).entry == entry
         && (h[k].event.KeyedIssued? && h[k].event.keyEpoch != 0 ==>
               forall j :: 0 <= j < |h| ==> !CompromisedBefore(h[j].event,
                   IssuerKey(entry.issuer, h[k].event.keyEpoch), h[k].height))
  }

  lemma {:induction false} StandingsNameTheirSubject(h: seq<Stamped>)
    ensures forall subject :: subject in FoldStandings(map[], h) && FoldStandings(map[], h)[subject].issued.Some? ==>
              FoldStandings(map[], h)[subject].issued.value.entry.subject == subject
  {
    if h != [] {
      StandingsNameTheirSubject(h[..|h| - 1]);
    }
  }

  lemma IncludedIsEntitled(h: seq<Stamped>, subject: Address, now: nat)
    requires subject in FoldStandings(map[], h) && Exclusion(FoldStandings(map[], h)[subject], FoldCutoffs(map[], h),
        now).None?
    ensures FoldStandings(map[], h)[subject].issued.value.entry.subject == subject
    ensures Entitled(h, FoldStandings(map[], h)[subject].issued.value.entry, now)
  {
    var s := FoldStandings(map[], h)[subject];
    StandingsNameTheirSubject(h);
    DeniedIsDeclarative(h, subject);
    DecisionIsDeclarative(h, subject);
    var k: nat :| LastDecision(h, subject, k);
    var i := s.issued.value;
    assert i == IssuanceOf(h[k]);
    CutoffIsLeast(h, IssuerKey(i.entry.issuer, i.keyEpoch), i.block);
  }

  lemma EntitledIsIncluded(h: seq<Stamped>, entry: Entry, now: nat)
    requires Entitled(h, entry, now)
    ensures var m := FoldStandings(map[], h);
            entry.subject in m && Exclusion(m[entry.subject], FoldCutoffs(map[], h), now).None? &&
                m[entry.subject].issued.value.entry == entry
  {
    DeniedIsDeclarative(h, entry.subject);
    DecisionIsDeclarative(h, entry.subject);
    var k: nat :|
      && LastDecision(h, entry.subject, k) && (h[k].event.Issued? || h[k].event.KeyedIssued?)
      && IssuanceOf(h[k]).entry == entry
      && (h[k].event.KeyedIssued? && h[k].event.keyEpoch != 0 ==>
            forall j :: 0 <= j < |h| ==> !CompromisedBefore(h[j].event, IssuerKey(entry.issuer, h[k].event.keyEpoch),
                h[k].height));
    var i := IssuanceOf(h[k]);
    CutoffIsLeast(h, IssuerKey(i.entry.issuer, i.keyEpoch), i.block);
  }

  lemma RosterMembers(p: Progress, h: seq<Stamped>, entry: Entry, now: nat)
    requires p.standings == FoldStandings(map[], h) && p.cutoffs == FoldCutoffs(map[], h)
    ensures entry in Roster(p, now) <==> Entitled(h, entry, now)
  {
    if entry in Roster(p, now) {
      var subject :| subject in Included(p, now) && p.standings[subject].issued.value.entry == entry;
      IncludedIsEntitled(h, subject, now);
    }
    if Entitled(h, entry, now) {
      EntitledIsIncluded(h, entry, now);
      assert entry.subject in Included(p, now);
    }
  }

  lemma ColdFolds(deploymentBlock: nat, anchor: Block, blocks: seq<Block>, now: nat)
    requires deploymentBlock >= 1 && Replay(Anchor(deploymentBlock, anchor), blocks, now).Some?
    ensures var p := Replay(Anchor(deploymentBlock, anchor), blocks, now).value;
            var h := History(deploymentBlock - 1, blocks);
            p.standings == FoldStandings(map[], h) && p.cutoffs == FoldCutoffs(map[], h)
  {
    ReplayFoldsHistory(Anchor(deploymentBlock, anchor), blocks, now);
  }

  /** A cold replay's roster is exactly the set of entitled entries of its event history. */
  lemma RosterIsDeclarative(deploymentBlock: nat, anchor: Block, blocks: seq<Block>, now: nat, entry: Entry)
    requires deploymentBlock >= 1 && Replay(Anchor(deploymentBlock, anchor), blocks, now).Some?
    ensures entry in Roster(Replay(Anchor(deploymentBlock, anchor), blocks, now).value, now)
            <==> Entitled(History(deploymentBlock - 1, blocks), entry, now)
  {
    ColdFolds(deploymentBlock, anchor, blocks, now);
    RosterMembers(Replay(Anchor(deploymentBlock, anchor), blocks, now).value, History(deploymentBlock - 1, blocks),
                  entry, now);
  }

  // ---------- A generated checkpoint can be resumed ----------

  lemma {:induction false} HeightsFollowDeployment(height: nat, blocks: seq<Block>)
    ensures forall i :: 0 <= i < |History(height, blocks)| ==> History(height, blocks)[i].height > height
  {
    if blocks != [] {
      HeightsFollowDeployment(height, blocks[..|blocks| - 1]);
    }
  }

  lemma StepIsAdmissible(m: Standings, s: Stamped, deploymentBlock: nat)
    requires IssuancesAdmissible(m, deploymentBlock) && s.height >= deploymentBlock
    ensures IssuancesAdmissible(StepStandings(m, s), deploymentBlock)
  {
  }

  lemma {:induction false} FoldsAreAdmissible(h: seq<Stamped>, deploymentBlock: nat)
    requires forall i :: 0 <= i < |h| ==> Acceptable(h[i]) && h[i].height >= deploymentBlock
    ensures IssuancesAdmissible(FoldStandings(map[], h), deploymentBlock)
    ensures forall key :: key in FoldCutoffs(map[], h) ==> key.epoch >= 1
  {
    if h != [] {
      var n := |h| - 1;
      FoldsAreAdmissible(h[..n], deploymentBlock);
      StepIsAdmissible(FoldStandings(map[], h[..n]), h[n], deploymentBlock);
      assert Acceptable(h[n]);
    }
  }

  /** The checkpoint of a cold replay passes every admission check of a later run. */
  lemma OwnCheckpointIsAdmissible(deploymentBlock: nat, anchor: Block, blocks: seq<Block>, now: nat, cutoffHeight: nat)
    requires deploymentBlock >= 1 && anchor.timestamp >= 1 && blocks != []
    requires Replay(Anchor(deploymentBlock, anchor), blocks, now).Some?
    requires deploymentBlock - 1 + |blocks| <= cutoffHeight
    ensures CheckpointAdmissible(Replay(Anchor(deploymentBlock, anchor), blocks, now).value, deploymentBlock,
        cutoffHeight)
  {
    var start := Anchor(deploymentBlock, anchor);
    ReplayFoldsHistory(start, blocks, now);
    ReplayedEventsAcceptable(start, blocks, now);
    TimesAscend(start, blocks, now);
    HeightsFollowDeployment(deploymentBlock - 1, blocks);
    FoldsAreAdmissible(History(deploymentBlock - 1, blocks), deploymentBlock);
  }
}
