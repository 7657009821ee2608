/**
 * What holds over every sequence of vault mutations (pipeline/vault.ts, lines 358-769): a record only
 * leaves by an approved deletion, deadlines never shrink, and the revocation outbox keeps its promises.
 */
module VaultHistory {
  import opened Prelude
  import opened EvidenceVault

  function Empty(): VaultData {
    VaultData(0, map[], [], map[], map[])
  }

  function Run(v: VaultData, ops: seq<Op>): VaultData {
    if ops == [] then v else Apply(Run(v, ops[..|ops| - 1]), ops[|ops| - 1]).0
  }

  lemma RunAppends(v: VaultData, ops: seq<Op>, op: Op)
    ensures Run(v, ops + [op]) == Apply(Run(v, ops), op).0
  {
    assert (ops + [op])[..|ops|] == ops;
  }

  function At(ops: seq<Op>, k: nat): VaultData
    requires k <= |ops|
  {
    Run(Empty(), ops[..k])
  }

  lemma AtStep(ops: seq<Op>, k: nat)
    requires k < |ops|
    ensures At(ops, k + 1) == Apply(At(ops, k), ops[k]).0
  {
    assert ops[..k + 1][..k] == ops[..k];
  }

  lemma {:induction false} RunKeepsInv(ops: seq<Op>, k: nat)
    requires k <= |ops|
    ensures Inv(At(ops, k))
  {
    if k > 0 {
      RunKeepsInv(ops, k - 1);
      AtStep(ops, k - 1);
      StepKeepsInv(At(ops, k - 1), ops[k - 1]);
    }
  }

  // ---------- Erasure ----------

  /** The conditions under which a record may be erased at a moment. */
  ghost predicate ErasureAllowed(v: VaultData, id: Id, at: int)
    requires id in v.records
  {
    var r, c := v.records[id], ControlsOf(v, id);
    && r.createdAt <= at && Deadline(v, r) <= at
    && (forall h :: h in c.holds ==> h.release.Some?)
    && (forall j :: j in v.jobs && j.record == id ==> v.jobs[j].state == Confirmed)
    && r.state != Pending && r.state != UnderReview
    && (r.state == Blocked ==> exists j :: j in v.jobs && j.record == id && v.jobs[j].state == Confirmed)
    && c.requests != []
    && var q := c.requests[|c.requests| - 1];
       && q.fingerprint == FingerprintOf(v, r)
       && q.approval.Some? && q.approval.value.operator != q.operator
       && q.requestedAt <= q.approval.value.at <= at
  }

  /** A deletion that meets no blocker meets every condition. */
  lemma NoBlockersMeansAllowed(v: VaultData, id: Id, at: int)
    requires Inv(v) && id in v.records && DeletionBlockers(v, v.records[id], at) == {}
    ensures ErasureAllowed(v, id, at)
  {
    var r := v.records[id];
    var b := DeletionBlockers(v, r, at);
    assert InvalidRetention !in b && RetentionNotExpired !in b && RecordTimeInvalid !in b && LegalHold !in b;
    assert IssuancePending !in b && ReviewPending !in b && RevocationPending !in b && RevocationNotReconciled !in b;
    assert NotApproved !in b && RequestStale !in b && ApprovalTimeInvalid !in b;
    var q := ControlsOf(v, id).requests[|ControlsOf(v, id).requests| - 1];
    assert q in ControlsOf(v, id).requests;
    RequestsInOrder(v, id);
    JobsConfirmed(v, id);
    if r.state == Blocked {
      var j :| j in JobsOf(v, id) && JobsOf(v, id)[j].state == Confirmed;
      assert j in v.jobs && j.record == id && v.jobs[j].state == Confirmed;
    }
  }

  lemma RequestsInOrder(v: VaultData, id: Id)
    requires Inv(v)
    ensures forall q :: q in ControlsOf(v, id).requests ==> RequestOk(q)
  {
  }

  lemma JobsConfirmed(v: VaultData, id: Id)
    requires !AnyOpen(JobsOf(v, id))
    ensures forall j :: j in v.jobs && j.record == id ==> v.jobs[j].state == Confirmed
  {
    forall j | j in v.jobs && j.record == id ensures v.jobs[j].state == Confirmed {
      assert j in JobsOf(v, id);
    }
  }

  predicate Erases(op: Op, id: Id) {
    (op.Erase? && op.id == id) || (op.PurgeExpired? && id in op.order)
  }

  /** What an operation leaves alone in a record it keeps. */
  predicate SameCore(a: Record, b: Record) {
    b.id == a.id && b.wallet == a.wallet && b.evidenceHash == a.evidenceHash && b.content == a.content
    && b.createdAt == a.createdAt && b.retentionUntil == a.retentionUntil && b.policy == a.policy
  }

  ghost predicate Tombstone(v: VaultData, id: Id) {
    exists i :: 0 <= i < |v.erasures| && v.erasures[i].record == id
  }

  lemma EraseMarks(v: VaultData, id: Id, q: DeletionRequest, at: int)
    ensures Tombstone(EraseRecord(v, id, q, at), id)
    ensures forall k :: Tombstone(v, k) ==> Tombstone(EraseRecord(v, id, q, at), k)
  {
    var t := EraseRecord(v, id, q, at);
    assert t.erasures[|v.erasures|].record == id;
    forall k | Tombstone(v, k) ensures Tombstone(t, k) {
      var i :| 0 <= i < |v.erasures| && v.erasures[i].record == k;
      assert t.erasures[i].record == k;
    }
  }

  lemma {:induction false} PurgeErases(v: VaultData, order: seq<Id>, now: int)
    ensures var t := PurgeAll(v, order, now).0;
            && t.jobs == v.jobs && t.retention == v.retention
            && (forall id :: id in t.records ==> id in v.records && t.records[id] == v.records[id])
            && (forall id :: id in v.records && id !in t.records ==> id in order && Due(v, id, now) && Tombstone(t, id))
            && (forall id :: id in order && id in v.records && Due(v, id, now) ==> id !in t.records)
            && PurgeAll(v, order, now).1 + |v.erasures| == |t.erasures|
            && v.erasures <= t.erasures
  {
    if order != [] {
      var n := |order| - 1;
      PurgeErases(v, order[..n], now);
      var t := PurgeAll(v, order[..n], now).0;
      assert order == order[..n] + [order[n]];
      DueIsLocal(v, t, order[n], now);
      if Due(t, order[n], now) {
        EraseMarks(t, order[n], Last(ControlsOf(t, order[n]).requests).value, now);
      }
    }
  }

  lemma DueIsLocal(v: VaultData, t: VaultData, id: Id, now: int)
    requires t.jobs == v.jobs && t.retention == v.retention &&
        (id in t.records ==> id in v.records && t.records[id] == v.records[id])
    ensures id in t.records ==> (Due(t, id, now) <==> Due(v, id, now))
    ensures id !in t.records ==> !Due(t, id, now)
  {
    if id in t.records {
      assert JobsOf(t, t.records[id].id) == JobsOf(v, t.records[id].id);
    }
  }

  /** Job recovery only adds jobs. */
  lemma {:induction false} RecoverKeepsRecords(v: VaultData, order: seq<Id>, now: int)
    ensures RecoverAll(v, order, now).Ok? ==>
              RecoverAll(v, order, now).value == v.(jobs := RecoverAll(v, order, now).value.jobs)
    ensures RecoverAll(v, order, now).Ok? ==>
              forall j :: j in v.jobs ==>
                j in RecoverAll(v, order, now).value.jobs && RecoverAll(v, order, now).value.jobs[j] == v.jobs[j]
  {
    if order != [] {
      RecoverKeepsRecords(v, order[..|order| - 1], now);
    }
  }

  lemma DecidedRecords(v: VaultData, r: Record, condemned: bool, at: int)
    ensures var t := Decided(v, r, condemned, at).0; t.records == v.records || t.records == v.records[r.id := r]
    ensures Decided(v, r, condemned, at).0.erasures == v.erasures &&
        Decided(v, r, condemned, at).0.retention == v.retention
  {
  }

  /** A decision writes one record and leaves its core. */
  lemma DecisionKeepsCore(v: VaultData, r: Record, condemned: bool, at: int)
    requires r.id in v.records && SameCore(v.records[r.id], r)
    ensures var t := Decided(v, r, condemned, at).0;
            && t.records.Keys == v.records.Keys && SameCore(v.records[r.id], t.records[r.id])
            && forall k :: k in v.records && k != r.id ==> t.records[k] == v.records[k]
  {
    DecidedRecords(v, r, condemned, at);
  }

  lemma RescreenRecords(v: VaultData, id: Id, event: Rescreen, expected: Record)
    requires id in v.records && v.records[id].id == id
    ensures var t := RescreenRecord(v, id, event, expected).0;
            && t.records.Keys == v.records.Keys && SameCore(v.records[id], t.records[id])
            && forall k :: k in v.records && k != id ==> t.records[k] == v.records[k]
  {
    var r := v.records[id];
    var state := RescreenedState(r, event.decision);
    DecisionKeepsCore(v, r.(lastScreenedAt := Some(event.at), rescreens := r.rescreens + [event], state := state),
        event.decision == Block, event.at);
  }

  lemma ReviewRecords(v: VaultData, id: Id, review: Review, basis: Basis)
    requires id in v.records && v.records[id].id == id
    ensures var t := ReviewRecord(v, id, review, basis).0;
            && t.records.Keys == v.records.Keys && SameCore(v.records[id], t.records[id])
            && forall k :: k in v.records && k != id ==> t.records[k] == v.records[k]
  {
    var r := v.records[id];
    var state := if review.outcome == Cleared then ClearedState(r) else Blocked;
    DecisionKeepsCore(v, r.(reviews := r.reviews + [review], state := state), review.outcome == Condemned, review.at);
  }

  predicate RecordOp(op: Op) {
    op.Put? || op.RecordMaterialization? || op.RecordSourceConfirmation? || op.RecordRescreen? || op.DecideReview?
  }

  lemma RecordOpsKeepRecords(v: VaultData, op: Op, id: Id)
    requires RecordOp(op) && id in v.records && forall k :: k in v.records ==> v.records[k].id == k
    ensures id in Operate(v, op).0.records && SameCore(v.records[id], Operate(v, op).0.records[id])
  {
    match op {
      case RecordRescreen(k, event, expected) => if k in v.records { RescreenRecords(v, k, event, expected); }
      case DecideReview(k, review, basis) => if k in v.records { ReviewRecords(v, k, review, basis); }
      case _ => PlainOpsKeepRecords(v, op, id);
    }
  }

  lemma PlainOpsKeepRecords(v: VaultData, op: Op, id: Id)
    requires op.Put? || op.RecordMaterialization? || op.RecordSourceConfirmation?
    requires id in v.records && forall k :: k in v.records ==> v.records[k].id == k
    ensures id in Operate(v, op).0.records && SameCore(v.records[id], Operate(v, op).0.records[id])
  {
  }

  /** Decisions and evidence leave retention controls and tombstones alone. */
  lemma RecordOpsLeaveRest(v: VaultData, op: Op)
    requires RecordOp(op)
    ensures Operate(v, op).0.erasures == v.erasures && Operate(v, op).0.retention == v.retention
  {
    match op {
      case RecordRescreen(id, event, expected) => RescreenLeavesRest(v, id, event, expected);
      case DecideReview(id, review, basis) => ReviewLeavesRest(v, id, review, basis);
      case _ =>
    }
  }

  lemma RescreenLeavesRest(v: VaultData, id: Id, event: Rescreen, expected: Record)
    ensures RescreenRecord(v, id, event, expected).0.erasures == v.erasures
    ensures RescreenRecord(v, id, event, expected).0.retention == v.retention
  {
  }

  lemma ReviewLeavesRest(v: VaultData, id: Id, review: Review, basis: Basis)
    ensures ReviewRecord(v, id, review, basis).0.erasures == v.erasures
    ensures ReviewRecord(v, id, review, basis).0.retention == v.retention
  {
  }

  lemma JobOpsLeaveRest(v: VaultData, op: Op)
    requires JobOp(op)
    ensures Operate(v, op).0 == v.(jobs := Operate(v, op).0.jobs)
  {
  }

  lemma EraseLeavesRest(v: VaultData, id: Id, request: nat, at: int)
    ensures EraseOne(v, id, request, at).0.retention == v.retention && EraseOne(v, id, request, at).0.jobs == v.jobs
    ensures v.erasures <= EraseOne(v, id, request, at).0.erasures
    ensures id in v.records && id !in EraseOne(v, id, request, at).0.records ==>
              Tombstone(EraseOne(v, id, request, at).0, id)
  {
    if id in v.records && id !in EraseOne(v, id, request, at).0.records {
      EraseMarks(v, id, Last(ControlsOf(v, id).requests).value, at);
    }
  }

  lemma EraseStep(v: VaultData, id: Id, request: nat, at: int, k: Id)
    requires k in v.records
    ensures var t := EraseOne(v, id, request, at).0;
            if k in t.records then t.records[k] == v.records[k]
            else k == id && DeletionBlockers(v, v.records[k], at) == {}
  {
  }

  lemma EraseFate(v: VaultData, op: Op, id: Id)
    requires Inv(v) && id in v.records && (op.Erase? || op.PurgeExpired?)
    ensures var t := Operate(v, op).0;
            if id in t.records then t.records[id] == v.records[id] else Erases(op, id) && ErasureAllowed(v, id, op.at)
  {
    if op.PurgeExpired? {
      PurgeErases(v, op.order, op.at);
    } else {
      EraseStep(v, op.id, op.request, op.at, id);
    }
    if id !in Operate(v, op).0.records {
      NoBlockersMeansAllowed(v, id, op.at);
    }
  }

  lemma OperationFate(v: VaultData, op: Op, id: Id)
    requires Inv(v) && id in v.records
    ensures id in Operate(v, op).0.records ==> SameCore(v.records[id], Operate(v, op).0.records[id])
    ensures id !in Operate(v, op).0.records ==> Erases(op, id) && ErasureAllowed(v, id, op.at)
  {
    if op.Erase? || op.PurgeExpired? {
      EraseFate(v, op, id);
    } else if op.RecoverBlocked? {
      RecoverKeepsRecords(v, op.order, op.at);
    } else if ControlOp(op) {
      ControlOpsWriteControls(v, op);
    } else if RecordOp(op) {
      RecordOpsKeepRecords(v, op, id);
    }
  }

  /** A record survives every operation with its core unchanged, or was allowed to go. */
  lemma RecordFate(v: VaultData, op: Op, id: Id)
    requires Inv(v) && id in v.records
    ensures id in Apply(v, op).0.records ==> SameCore(v.records[id], Apply(v, op).0.records[id])
    ensures id !in Apply(v, op).0.records ==> Erases(op, id) && ErasureAllowed(v, id, op.at)
  {
    OperationFate(v, op, id);
  }

  /** A purge over all records erases exactly those due, and counts them. */
  lemma PurgeIsExact(v: VaultData, order: seq<Id>, now: int, id: Id)
    requires Inv(v) && Timestamp(now) && id in v.records && forall k :: k in v.records ==> k in order
    ensures id in Apply(v, PurgeExpired(order, now)).0.records <==> !Due(v, id, now)
    ensures Apply(v, PurgeExpired(order, now)).1.Purged?
    ensures Apply(v, PurgeExpired(order, now)).1.count + |v.erasures| == |Apply(v, PurgeExpired(order, now)).0.erasures|
  {
    PurgeErases(v, order, now);
  }

  // ---------- Requests and approvals in the history ----------

  /** The mutation at position k was this request, made over a record, holds, extensions and jobs like these. */
  predicate AskedAt(ops: seq<Op>, k: nat, id: Id, q: DeletionRequest) {
    && k < |ops| && ops[k].RequestDeletion? && ops[k].id == id && ops[k].input.operator == q.operator &&
        ops[k].at == q.requestedAt
    && id in At(ops, k).records && FingerprintOf(At(ops, k), At(ops, k).records[id]) == q.fingerprint
  }

  predicate ApprovedAt(ops: seq<Op>, k: nat, id: Id, q: DeletionRequest) {
    && k < |ops| && q.approval.Some? && ops[k].ApproveDeletion? && ops[k].id == id
    && ops[k].operator == q.approval.value.operator && ops[k].at == q.approval.value.at
    && id in At(ops, k).records && FingerprintOf(At(ops, k), At(ops, k).records[id]) == q.fingerprint
  }

  /** Operations that are not about retention leave all retention controls alone. */
  lemma RetentionStays(v: VaultData, op: Op)
    requires !ControlOp(op)
    ensures Apply(v, op).0.retention == v.retention
  {
    if op.PurgeExpired? {
      PurgeErases(v, op.order, op.at);
    } else if op.RecoverBlocked? {
      RecoverKeepsRecords(v, op.order, op.at);
    } else if op.Erase? {
      EraseLeavesRest(v, op.id, op.request, op.at);
    } else if RecordOp(op) {
      RecordOpsLeaveRest(v, op);
    } else {
      JobOpsLeaveRest(v, op);
    }
  }

  lemma RequestsStay(v: VaultData, op: Op, id: Id)
    requires !ControlOp(op) || op.id != id
    ensures ControlsOf(Apply(v, op).0, id).requests == ControlsOf(v, id).requests
  {
    if ControlOp(op) {
      ControlOpsWriteControls(v, op);
    } else {
      RetentionStays(v, op);
    }
  }

  lemma AskedEarlier(ops: seq<Op>, more: Op, k: nat, id: Id, q: DeletionRequest)
    requires AskedAt(ops, k, id, q)
    ensures AskedAt(ops + [more], k, id, q)
  {
    assert (ops + [more])[..k] == ops[..k];
  }

  lemma ApprovedEarlier(ops: seq<Op>, more: Op, k: nat, id: Id, q: DeletionRequest)
    requires ApprovedAt(ops, k, id, q)
    ensures ApprovedAt(ops + [more], k, id, q)
  {
    assert (ops + [more])[..k] == ops[..k];
  }

  ghost predicate Traced(ops: seq<Op>, id: Id, q: DeletionRequest) {
    && (exists k: nat :: AskedAt(ops, k, id, q))
    && (q.approval.Some? ==> exists k: nat, m: nat :: k < m && AskedAt(ops, k, id, q) && ApprovedAt(ops, m, id, q))
  }

  lemma TracedLonger(ops: seq<Op>, more: Op, id: Id, q: DeletionRequest)
    requires Traced(ops, id, q)
    ensures Traced(ops + [more], id, q)
  {
    var k: nat :| AskedAt(ops, k, id, q);
    AskedEarlier(ops, more, k, id, q);
    if q.approval.Some? {
      var i: nat, m: nat :| i < m && AskedAt(ops, i, id, q) && ApprovedAt(ops, m, id, q);
      AskedEarlier(ops, more, i, id, q);
      ApprovedEarlier(ops, more, m, id, q);
    }
  }

  lemma TracedAsked(ops: seq<Op>, op: Op, id: Id, q: DeletionRequest)
    requires op.RequestDeletion? && op.id == id && op.input.operator == q.operator && op.at == q.requestedAt &&
        q.approval.None?
    requires id in Run(Empty(), ops).records && FingerprintOf(Run(Empty(), ops), Run(Empty(), ops).records[id]) ==
        q.fingerprint
    ensures Traced(ops + [op], id, q)
  {
    assert (ops + [op])[..|ops|] == ops;
    assert AskedAt(ops + [op], |ops|, id, q);
  }

  lemma TracedApproved(ops: seq<Op>, op: Op, id: Id, q: DeletionRequest)
    requires Traced(ops, id, q) && op.ApproveDeletion? && op.id == id && Approves(Run(Empty(), ops), op, q)
    ensures Traced(ops + [op], id, q.(approval := Some(Approval(op.operator, op.at))))
  {
    var p := q.(approval := Some(Approval(op.operator, op.at)));
    var k: nat :| AskedAt(ops, k, id, q);
    AskedEarlier(ops, op, k, id, q);
    assert (ops + [op])[..|ops|] == ops;
    assert AskedAt(ops + [op], k, id, p) && ApprovedAt(ops + [op], |ops|, id, p);
  }

  /** Every request on record was made, and every approval on it was given after it, over the same snapshot. */
  lemma {:induction false} RequestsAreTraced(ops: seq<Op>, id: Id, q: DeletionRequest)
    requires q in ControlsOf(Run(Empty(), ops), id).requests
    ensures Traced(ops, id, q)
    decreases |ops|, 1
  {
    var n := |ops| - 1;
    var before, op := ops[..n], ops[n];
    assert ops == before + [op];
    if ControlOp(op) && op.id == id {
      ControlOpTraced(before, op, id, q);
    } else {
      RequestsStay(Run(Empty(), before), op, id);
      RequestsAreTraced(before, id, q);
      TracedLonger(before, op, id, q);
    }
  }

  lemma {:induction false} ControlOpTraced(before: seq<Op>, op: Op, id: Id, q: DeletionRequest)
    requires ControlOp(op) && op.id == id && q in ControlsOf(Run(Empty(), before + [op]), id).requests
    ensures Traced(before + [op], id, q)
    decreases |before| + 1, 0
  {
    var v := Run(Empty(), before);
    assert (before + [op])[..|before|] == before;
    ControlOpsRequests(v, op);
    if q in ControlsOf(v, id).requests {
      RequestsAreTraced(before, id, q);
      TracedLonger(before, op, id, q);
    } else if op.RequestDeletion? {
      AskedNow(before, op, id, q);
    } else {
      var p := ControlsOf(v, id).requests[|ControlsOf(v, id).requests| - 1];
      RequestsAreTraced(before, id, p);
      TracedApproved(before, op, id, p);
    }
  }

  lemma AskedNow(before: seq<Op>, op: Op, id: Id, q: DeletionRequest)
    requires op.RequestDeletion? && op.id == id && q !in ControlsOf(Run(Empty(), before), id).requests
    requires q in ControlsOf(Run(Empty(), before + [op]), id).requests
    ensures Traced(before + [op], id, q)
  {
    RunAppends(Empty(), before, op);
    RequestAdded(Run(Empty(), before), op, q);
    TracedAsked(before, op, id, q);
  }

  lemma RequestAdded(v: VaultData, op: Op, q: DeletionRequest)
    requires op.RequestDeletion? && q !in ControlsOf(v, op.id).requests
    requires q in ControlsOf(Operate(v, op).0, op.id).requests
    ensures op.input.operator == q.operator && op.at == q.requestedAt && q.approval.None?
    ensures op.id in v.records && FingerprintOf(v, v.records[op.id]) == q.fingerprint
  {
    ControlOpsRequests(v, op);
    ControlOpsWriteControls(v, op);
  }

  /**
   * A record only ever leaves when everything allows it, under a request that one operator made and
   * another approved afterwards, both over the very record, holds, extensions and jobs erased now.
   */
  lemma ErasureWasAgreed(ops: seq<Op>, op: Op, id: Id)
    requires id in Run(Empty(), ops).records && id !in Apply(Run(Empty(), ops), op).0.records
    ensures Erases(op, id) && ErasureAllowed(Run(Empty(), ops), id, op.at)
    ensures var requests := ControlsOf(Run(Empty(), ops), id).requests;
            var q := requests[|requests| - 1];
            exists k: nat, m: nat :: k < m && AskedAt(ops, k, id, q) && ApprovedAt(ops, m, id, q)
  {
    var v := Run(Empty(), ops);
    assert ops[..|ops|] == ops;
    RunKeepsInv(ops, |ops|);
    RecordFate(v, op, id);
    var requests := ControlsOf(v, id).requests;
    RequestsAreTraced(ops, id, requests[|requests| - 1]);
  }

  // ---------- Every stored record: live, or erased once ----------

  lemma ErasuresStay(v: VaultData, op: Op, id: Id)
    requires Tombstone(v, id)
    ensures Tombstone(Apply(v, op).0, id)
  {
    ErasuresGrow(v, op);
    var i :| 0 <= i < |v.erasures| && v.erasures[i].record == id;
    assert Apply(v, op).0.erasures[i].record == id;
  }

  lemma ErasuresGrow(v: VaultData, op: Op)
    ensures v.erasures <= Apply(v, op).0.erasures
  {
    if op.PurgeExpired? {
      PurgeErases(v, op.order, op.at);
    } else if op.RecoverBlocked? {
      RecoverKeepsRecords(v, op.order, op.at);
    } else if ControlOp(op) {
      ControlOpsWriteControls(v, op);
    } else if op.Erase? {
      EraseLeavesRest(v, op.id, op.request, op.at);
    } else if RecordOp(op) {
      RecordOpsLeaveRest(v, op);
    } else {
      JobOpsLeaveRest(v, op);
    }
  }

  lemma LeavesTombstone(v: VaultData, op: Op, id: Id)
    requires Inv(v) && id in v.records && id !in Apply(v, op).0.records
    ensures Tombstone(Apply(v, op).0, id)
  {
    RecordFate(v, op, id);
    if op.PurgeExpired? {
      PurgeErases(v, op.order, op.at);
    } else {
      EraseLeavesRest(v, op.id, op.request, op.at);
    }
  }

  predicate Known(v: VaultData, id: Id) {
    id in v.records || exists i :: 0 <= i < |v.erasures| && v.erasures[i].record == id
  }

  lemma KnownStays(v: VaultData, op: Op, id: Id)
    requires Inv(v) && Known(v, id)
    ensures Known(Apply(v, op).0, id)
  {
    if id !in v.records {
      assert Tombstone(v, id);
      ErasuresStay(v, op, id);
    } else if id !in Apply(v, op).0.records {
      LeavesTombstone(v, op, id);
    }
  }

  lemma {:induction false} KnownForever(ops: seq<Op>, j: nat, k: nat, id: Id)
    requires j <= k <= |ops| && Known(At(ops, j), id)
    ensures Known(At(ops, k), id)
  {
    if j < k {
      KnownForever(ops, j, k - 1, id);
      KnownNext(ops, k - 1, id);
    }
  }

  lemma KnownNext(ops: seq<Op>, k: nat, id: Id)
    requires k < |ops| && Known(At(ops, k), id)
    ensures Known(At(ops, k + 1), id)
  {
    RunKeepsInv(ops, k);
    AtStep(ops, k);
    KnownStays(At(ops, k), ops[k], id);
  }

  /** Once put, a record is for all time either live or erased, and erased at most once. */
  lemma StoredIsLiveOrErasedOnce(ops: seq<Op>, k: nat, r: Record)
    requires k < |ops| && ops[k] == Put(r) && Apply(At(ops, k), ops[k]).1.Stored?
    ensures var v := Run(Empty(), ops);
            && (r.id in v.records <==> !Tombstone(v, r.id))
            && forall i, j :: 0 <= i < j < |v.erasures| ==>
                 v.erasures[i].record != r.id || v.erasures[j].record != r.id
  {
    AtStep(ops, k);
    KnownForever(ops, k + 1, |ops|, r.id);
    RunKeepsInv(ops, |ops|);
    assert ops[..|ops|] == ops;
  }

  // ---------- Retention deadlines ----------

  lemma MinimumGrows(v: VaultData, op: Op, id: Id)
    requires id in v.records && id in Apply(v, op).0.records && SameCore(v.records[id], Apply(v, op).0.records[id]) &&
        v.records[id].id == id
    ensures Deadline(v, v.records[id]) <= Deadline(Apply(v, op).0, Apply(v, op).0.records[id])
  {
    if ControlOp(op) {
      ControlOpDeadline(v, op, id);
    } else {
      RetentionStays(v, op);
    }
  }

  lemma ControlOpDeadline(v: VaultData, op: Op, id: Id)
    requires ControlOp(op) && id in v.records && v.records[id].id == id
    ensures Operate(v, op).0.records == v.records && Deadline(v, v.records[id]) <= Deadline(Operate(v, op).0,
        v.records[id])
  {
    ControlOpsWriteControls(v, op);
    MinimumRises(v, op);
  }

  /** Only an extension writes the minimum, and it never lowers the deadline. */
  lemma MinimumRises(v: VaultData, op: Op)
    requires ControlOp(op)
    ensures op.id in v.records && v.records[op.id].id == op.id ==>
              Deadline(v, v.records[op.id]) <= Deadline(Operate(v, op).0, v.records[op.id])
  {
    match op {
      case ExtendRetention(id, until, operator, reference, at) =>
      case PlaceHold(id, hold, operator, reference, at) => HoldKeepsMinimum(v, id, hold, operator, reference, at);
      case ReleaseHold(id, hold, operator, reference, at) => ReleaseKeepsMinimum(v, id, hold, operator, reference, at);
      case RequestDeletion(id, input, at, request) => RequestKeepsMinimum(v, id, input, at, request);
      case ApproveDeletion(id, request, operator, at) => ApprovalKeepsMinimum(v, id, request, operator, at);
    }
  }

  lemma HoldKeepsMinimum(v: VaultData, id: Id, hold: Label, operator: Label, reference: Label, at: int)
    ensures ControlsOf(PlaceHoldOn(v, id, hold, operator, reference, at).0, id).minimumUntil
            == ControlsOf(v, id).minimumUntil
  {
  }

  lemma ReleaseKeepsMinimum(v: VaultData, id: Id, hold: Label, operator: Label, reference: Label, at: int)
    ensures ControlsOf(ReleaseHoldOn(v, id, hold, operator, reference, at).0, id).minimumUntil
            == ControlsOf(v, id).minimumUntil
  {
  }

  lemma RequestKeepsMinimum(v: VaultData, id: Id, input: DeletionInput, at: int, request: nat)
    ensures ControlsOf(RequestDeletionOf(v, id, input, at, request).0, id).minimumUntil
            == ControlsOf(v, id).minimumUntil
  {
  }

  lemma ApprovalKeepsMinimum(v: VaultData, id: Id, request: nat, operator: Label, at: int)
    ensures ControlsOf(ApproveDeletionOf(v, id, request, operator, at).0, id).minimumUntil
            == ControlsOf(v, id).minimumUntil
  {
  }

  lemma ErasedNext(ops: seq<Op>, k: nat, id: Id)
    requires k < |ops| && Tombstone(At(ops, k), id)
    ensures id !in At(ops, k + 1).records
  {
    RunKeepsInv(ops, k + 1);
    AtStep(ops, k);
    ErasuresStay(At(ops, k), ops[k], id);
  }

  /** A record that is there at two moments is there in between. */
  lemma ThereBefore(ops: seq<Op>, j: nat, k: nat, id: Id)
    requires j < k <= |ops| && id in At(ops, j).records && id in At(ops, k).records
    ensures id in At(ops, k - 1).records
  {
    KnownForever(ops, j, k - 1, id);
    if Tombstone(At(ops, k - 1), id) {
      ErasedNext(ops, k - 1, id);
    }
  }

  lemma DeadlineStep(v: VaultData, op: Op, id: Id)
    requires Inv(v) && id in v.records && id in Apply(v, op).0.records
    ensures Deadline(v, v.records[id]) <= Deadline(Apply(v, op).0, Apply(v, op).0.records[id])
  {
    RecordFate(v, op, id);
    MinimumGrows(v, op, id);
  }

  lemma DeadlineNext(ops: seq<Op>, k: nat, id: Id)
    requires k < |ops| && id in At(ops, k).records && id in At(ops, k + 1).records
    ensures Deadline(At(ops, k), At(ops, k).records[id]) <= Deadline(At(ops, k + 1), At(ops, k + 1).records[id])
  {
    RunKeepsInv(ops, k);
    AtStep(ops, k);
    DeadlineStep(At(ops, k), ops[k], id);
  }

  /** The deadline of a retained record never moves earlier. */
  lemma {:induction false} DeadlineNeverShrinks(ops: seq<Op>, j: nat, k: nat, id: Id)
    requires j <= k <= |ops| && id in At(ops, j).records && id in At(ops, k).records
    ensures Deadline(At(ops, j), At(ops, j).records[id]) <= Deadline(At(ops, k), At(ops, k).records[id])
  {
    if j < k {
      ThereBefore(ops, j, k, id);
      DeadlineNeverShrinks(ops, j, k - 1, id);
      DeadlineNext(ops, k - 1, id);
    }
  }

  // ---------- The revocation outbox ----------

  /** What one operation may do to a job it finds. */
  predicate JobMay(a: Job, op: Op, b: Job) {
    && (a.state == Confirmed ==> b.state == Confirmed)
    && (a.transaction.Some? && (b.transaction.None? || b.transaction.value.hash != a.transaction.value.hash) ==>
          op.FailRevocation? && op.minedRevert && op.job == a.id && a.state != Confirmed && b.transaction.None? &&
              b.state == Queued)
  }

  lemma QueueKeepsJobs(v: VaultData, r: Record, at: int)
    ensures Queue(v, r, at).Ok? ==> forall j :: j in v.jobs ==>
              j in Queue(v, r, at).value.jobs && Queue(v, r, at).value.jobs[j] == v.jobs[j]
  {
  }

  lemma DecidedKeepsJobs(v: VaultData, r: Record, condemned: bool, at: int)
    ensures forall j :: j in v.jobs ==>
              j in Decided(v, r, condemned, at).0.jobs && Decided(v, r, condemned, at).0.jobs[j] == v.jobs[j]
  {
    QueueKeepsJobs(WithRecord(v, r), r, at);
  }

  lemma RecordOpsKeepJobs(v: VaultData, op: Op, j: JobId)
    requires RecordOp(op) && j in v.jobs
    ensures j in Operate(v, op).0.jobs && Operate(v, op).0.jobs[j] == v.jobs[j]
  {
    match op {
      case RecordRescreen(id, event, expected) =>
        if id in v.records {
          var r := v.records[id];
          var state := RescreenedState(r, event.decision);
          DecidedKeepsJobs(v, r.(lastScreenedAt := Some(event.at), rescreens := r.rescreens + [event], state := state),
              event.decision == Block, event.at);
        }
      case DecideReview(id, review, basis) =>
        if id in v.records {
          var r := v.records[id];
          var state := if review.outcome == Cleared then ClearedState(r) else Blocked;
          DecidedKeepsJobs(v, r.(reviews := r.reviews + [review], state := state), review.outcome == Condemned,
              review.at);
        }
      case _ =>
    }
  }

  lemma JobFate(v: VaultData, op: Op, j: JobId)
    requires Inv(v) && j in v.jobs
    ensures j in Apply(v, op).0.jobs && JobMay(v.jobs[j], op, Apply(v, op).0.jobs[j])
  {
    if JobOp(op) {
      JobOpFate(v, op, j);
    } else {
      OtherOpsKeepJob(v, op, j);
    }
  }

  lemma OtherOpsKeepJob(v: VaultData, op: Op, j: JobId)
    requires j in v.jobs && !JobOp(op)
    ensures j in Operate(v, op).0.jobs && Operate(v, op).0.jobs[j] == v.jobs[j]
  {
    if op.PurgeExpired? {
      PurgeErases(v, op.order, op.at);
    } else if op.RecoverBlocked? {
      RecoverKeepsRecords(v, op.order, op.at);
    } else if ControlOp(op) {
      ControlOpsWriteControls(v, op);
    } else if RecordOp(op) {
      RecordOpsKeepJobs(v, op, j);
    } else {
      EraseLeavesRest(v, op.id, op.request, op.at);
    }
  }

  lemma JobOpFate(v: VaultData, op: Op, j: JobId)
    requires j in v.jobs && v.jobs[j].id == j && JobOp(op)
    ensures j in Operate(v, op).0.jobs && JobMay(v.jobs[j], op, Operate(v, op).0.jobs[j])
  {
    match op {
      case PrepareRevocation(k, t) => PrepareFate(v, k, t, j);
      case FinishRevocation(k, at) => FinishFate(v, k, at, j);
      case FailRevocation(k, error, mined) => FailFate(v, k, error, mined, j);
      case RecordObservation(k, known, observation, fits) => ObserveFate(v, k, known, observation, fits, j);
    }
  }

  predicate SameBytes(a: Job, b: Job) {
    && (a.state == Confirmed ==> b.state == Confirmed)
    && (a.transaction.Some? ==> b.transaction.Some? && b.transaction.value.hash == a.transaction.value.hash)
  }

  lemma PrepareFate(v: VaultData, k: JobId, t: Signed, j: JobId)
    requires j in v.jobs
    ensures j in PrepareJob(v, k, t).0.jobs && SameBytes(v.jobs[j], PrepareJob(v, k, t).0.jobs[j])
  {
  }

  lemma FinishFate(v: VaultData, k: JobId, at: int, j: JobId)
    requires j in v.jobs
    ensures j in FinishJob(v, k, at).0.jobs && SameBytes(v.jobs[j], FinishJob(v, k, at).0.jobs[j])
  {
  }

  lemma FailFate(v: VaultData, k: JobId, error: string, mined: bool, j: JobId)
    requires j in v.jobs && v.jobs[j].id == j
    ensures j in FailJob(v, k, error, mined).0.jobs && JobMay(v.jobs[j], FailRevocation(k, error, mined),
        FailJob(v, k, error, mined).0.jobs[j])
  {
  }

  lemma ObserveFate(v: VaultData, k: JobId, known: Job, observation: nat, fits: bool, j: JobId)
    requires j in v.jobs
    ensures j in ObserveJob(v, k, known, observation, fits).0.jobs &&
        SameBytes(v.jobs[j], ObserveJob(v, k, known, observation, fits).0.jobs[j])
  {
  }

  /** At any time a record has at most one job that is not confirmed. */
  lemma OneOpenJob(ops: seq<Op>, i: JobId, j: JobId)
    requires i in Run(Empty(), ops).jobs && j in Run(Empty(), ops).jobs && i.record == j.record
    requires Run(Empty(), ops).jobs[i].state != Confirmed && Run(Empty(), ops).jobs[j].state != Confirmed
    ensures i == j
  {
    RunKeepsInv(ops, |ops|);
    assert ops[..|ops|] == ops;
  }

  lemma {:induction false} ConfirmedIsFinal(ops: seq<Op>, k: nat, j: JobId)
    requires k <= |ops| && j in At(ops, k).jobs && At(ops, k).jobs[j].state == Confirmed
    ensures j in Run(Empty(), ops).jobs
    ensures var a, b := At(ops, k).jobs[j], Run(Empty(), ops).jobs[j];
            b.state == Confirmed && a.transaction.Some? && b.transaction.Some? &&
                b.transaction.value.hash == a.transaction.value.hash
    decreases |ops|
  {
    assert ops[..|ops|] == ops;
    RunKeepsInv(ops, k);
    if k < |ops| {
      var before := ops[..|ops| - 1];
      assert before[..k] == ops[..k] && before[..|before|] == before;
      ConfirmedIsFinal(before, k, j);
      RunKeepsInv(before, |before|);
      JobFate(Run(Empty(), before), ops[|ops| - 1], j);
      RunKeepsInv(ops, |ops|);
    }
  }

  /** The signed bytes of a job are only ever given up after its transaction was recorded as mined and reverted. */
  lemma {:induction false} BytesChangeOnlyAfterRevert(ops: seq<Op>, k: nat, j: JobId)
    requires k <= |ops| && j in At(ops, k).jobs && At(ops, k).jobs[j].transaction.Some?
    requires j in Run(Empty(), ops).jobs ==>
               Run(Empty(), ops).jobs[j].transaction.None? ||
                   Run(Empty(), ops).jobs[j].transaction.value.hash != At(ops, k).jobs[j].transaction.value.hash
    ensures exists i :: k <= i < |ops| && ops[i].FailRevocation? && ops[i].job == j && ops[i].minedRevert
    decreases |ops|
  {
    assert ops[..|ops|] == ops;
    var n := |ops| - 1;
    var before := ops[..n];
    assert before[..k] == ops[..k] && before[..n] == before;
    if j in Run(Empty(), before).jobs && Run(Empty(), before).jobs[j].transaction.Some?
       && Run(Empty(), before).jobs[j].transaction.value.hash == At(ops, k).jobs[j].transaction.value.hash {
      RunKeepsInv(before, n);
      JobFate(Run(Empty(), before), ops[n], j);
      assert Run(Empty(), before).jobs[j].id == j;
    } else {
      BytesChangeOnlyAfterRevert(before, k, j);
      var i :| k <= i < n && before[i].FailRevocation? && before[i].job == j && before[i].minedRevert;
      assert ops[i] == before[i];
    }
  }

  // ---------- Blocked records ----------

  ghost predicate HasJob(v: VaultData, id: Id) {
    exists j :: j in v.jobs && j.record == id
  }

  lemma QueueGivesOpenJob(v: VaultData, r: Record, at: int)
    requires Queue(v, r, at).Ok?
    ensures AnyOpen(JobsOf(Queue(v, r, at).value, r.id))
  {
    if !AnyOpen(JobsOf(v, r.id)) {
      assert JobId(r.id, at) in JobsOf(Queue(v, r, at).value, r.id);
    }
  }

  predicate Condemns(op: Op) {
    (op.RecordRescreen? && op.event.decision == Block) || (op.DecideReview? && op.review.outcome == Condemned)
  }

  function CondemnedAt(op: Op): int
    requires Condemns(op)
  {
    if op.RecordRescreen? then op.event.at else op.review.at
  }

  lemma CondemnQueues(v: VaultData, op: Op, id: Id)
    requires Inv(v) && Condemns(op) && id == op.id && !Apply(v, op).1.Threw?
    ensures var t := Operate(v, op).0;
            && id in t.records && t.records[id].id == id && t.records[id].state == Blocked
            && Queue(WithRecord(v, t.records[id]), t.records[id], CondemnedAt(op)) == Ok(t)
  {
  }

  /** A decision that condemns a record leaves it blocked with a revocation under way. */
  lemma CondemnedHasOpenJob(v: VaultData, op: Op, id: Id)
    requires Inv(v) && Condemns(op) && id == op.id && !Apply(v, op).1.Threw?
    ensures id in Apply(v, op).0.records && Apply(v, op).0.records[id].state == Blocked &&
        AnyOpen(JobsOf(Apply(v, op).0, id))
  {
    CondemnQueues(v, op, id);
    var t := Operate(v, op).0;
    QueueGivesOpenJob(WithRecord(v, t.records[id]), t.records[id], CondemnedAt(op));
    assert JobsOf(Apply(v, op).0, id) == JobsOf(t, id);
  }

  lemma JobsStay(v: VaultData, op: Op, id: Id)
    requires Inv(v) && HasJob(v, id)
    ensures HasJob(Apply(v, op).0, id)
  {
    var j :| j in v.jobs && j.record == id;
    JobFate(v, op, j);
  }

  predicate IsBlocked(v: VaultData, id: Id) {
    id in v.records && v.records[id].state == Blocked
  }

  /** The operation stores this record for the first time, already blocked. */
  predicate StoresBlocked(v: VaultData, op: Op, id: Id) {
    op.Put? && op.record.id == id && op.record.state == Blocked && id !in v.records && Apply(v, op).1.Stored?
  }

  /** Where a blocked record comes from. */
  lemma BlockedStep(v: VaultData, op: Op, id: Id)
    requires Inv(v) && IsBlocked(Apply(v, op).0, id)
    ensures IsBlocked(v, id) || StoresBlocked(v, op, id) || HasJob(Apply(v, op).0, id)
  {
    if op.PurgeExpired? {
      PurgeErases(v, op.order, op.at);
    } else if op.RecoverBlocked? {
      RecoverKeepsRecords(v, op.order, op.at);
    } else if ControlOp(op) {
      ControlOpsWriteControls(v, op);
    } else if RecordOp(op) {
      BlockedByRecordOp(v, op, id);
    }
  }

  lemma BlockedByRecordOp(v: VaultData, op: Op, id: Id)
    requires Inv(v) && RecordOp(op) && IsBlocked(Apply(v, op).0, id)
    ensures IsBlocked(v, id) || StoresBlocked(v, op, id) || HasJob(Apply(v, op).0, id)
  {
    if op.RecordRescreen? || op.DecideReview? {
      BlockedByDecision(v, op, id);
    }
  }

  lemma BlockedByDecision(v: VaultData, op: Op, id: Id)
    requires Inv(v) && (op.RecordRescreen? || op.DecideReview?) && id in Apply(v, op).0.records &&
        Apply(v, op).0.records[id].state == Blocked
    ensures IsBlocked(v, id) || HasJob(Apply(v, op).0, id)
  {
    if !Apply(v, op).1.Threw? && op.id == id {
      if Condemns(op) {
        CondemnedHasOpenJob(v, op, id);
        var j :| j in JobsOf(Apply(v, op).0, id);
      }
    } else if op.RecordRescreen? && op.id in v.records {
      RescreenRecords(v, op.id, op.event, op.expected);
    } else if op.DecideReview? && op.id in v.records {
      ReviewRecords(v, op.id, op.review, op.basis);
    }
  }

  lemma {:induction false} RecoveryCovers(v: VaultData, order: seq<Id>, now: int, id: Id)
    requires Inv(v) && id in order && id in v.records && v.records[id].state == Blocked
    ensures RecoverAll(v, order, now).Ok? && HasJob(RecoverAll(v, order, now).value, id)
  {
    var n := |order| - 1;
    RecoverKeepsInv(v, order[..n], now);
    RecoverKeepsInv(v, order, now);
    RecoverKeepsRecords(v, order[..n], now);
    var t := RecoverAll(v, order[..n], now).value;
    if order[n] == id {
      RecoverOne(t, id, now);
    } else {
      assert order == order[..n] + [order[n]];
      RecoveryCovers(v, order[..n], now, id);
      if order[n] in t.records {
        QueueKeepsJobs(t, t.records[order[n]], now);
      }
    }
  }

  lemma RecoverOne(t: VaultData, id: Id, now: int)
    requires Inv(t) && id in t.records
    ensures JobsOf(t, id) != map[] ==> HasJob(t, id)
    ensures Queue(t, t.records[id], now).Ok? ==> HasJob(Queue(t, t.records[id], now).value, id)
  {
    if JobsOf(t, id) != map[] {
      var j :| j in JobsOf(t, id);
      assert j in t.jobs && j.record == id;
    }
    if Queue(t, t.records[id], now).Ok? {
      QueueGivesOpenJob(t, t.records[id], now);
      var j :| j in JobsOf(Queue(t, t.records[id], now).value, id);
    }
  }

  /** The operation gives the record a job: it condemns it, or recovers it while it is blocked. */
  predicate GivesJob(v: VaultData, op: Op, id: Id) {
    && id in v.records && !Apply(v, op).1.Threw?
    && ((Condemns(op) && op.id == id) || (op.RecoverBlocked? && id in op.order && v.records[id].state == Blocked))
  }

  lemma GivenJobIsThere(v: VaultData, op: Op, id: Id)
    requires Inv(v) && GivesJob(v, op, id)
    ensures HasJob(Apply(v, op).0, id)
  {
    if op.RecoverBlocked? {
      RecoveryCovers(v, op.order, op.at, id);
    } else {
      CondemnedHasOpenJob(v, op, id);
      var j :| j in JobsOf(Apply(v, op).0, id);
    }
  }

  lemma QueueServesOne(v: VaultData, r: Record, at: int, id: Id)
    requires Queue(v, r, at).Ok? && HasJob(Queue(v, r, at).value, id) && !HasJob(v, id)
    ensures id == r.id
  {
    var t := Queue(v, r, at).value;
    var j :| j in t.jobs && j.record == id;
    assert j !in v.jobs;
  }

  lemma {:induction false} RecoveryServesBlocked(v: VaultData, order: seq<Id>, now: int, id: Id)
    requires Inv(v) && RecoverAll(v, order, now).Ok? && HasJob(RecoverAll(v, order, now).value, id) && !HasJob(v, id)
    ensures id in order && id in v.records && v.records[id].state == Blocked
  {
    var n := |order| - 1;
    assert order == order[..n] + [order[n]];
    RecoverKeepsInv(v, order[..n], now);
    RecoverKeepsRecords(v, order[..n], now);
    var t := RecoverAll(v, order[..n], now).value;
    if HasJob(t, id) {
      RecoveryServesBlocked(v, order[..n], now, id);
    } else {
      QueueServesOne(t, t.records[order[n]], now, id);
    }
  }

  lemma DecidedServesOne(v: VaultData, r: Record, condemned: bool, at: int, id: Id)
    requires HasJob(Decided(v, r, condemned, at).0, id) && !HasJob(v, id)
    ensures id == r.id && condemned && !Decided(v, r, condemned, at).1.Threw?
  {
    if condemned && Queue(WithRecord(v, r), r, at).Ok? {
      assert !HasJob(WithRecord(v, r), id);
      QueueServesOne(WithRecord(v, r), r, at, id);
    }
  }

  /** Jobs come from condemning or recovering a record and from nothing else. */
  lemma JobBirth(v: VaultData, op: Op, id: Id)
    requires Inv(v) && HasJob(Apply(v, op).0, id) && !HasJob(v, id)
    ensures GivesJob(v, op, id)
  {
    if op.RecoverBlocked? {
      RecoverKeepsInv(v, op.order, op.at);
      RecoveryServesBlocked(v, op.order, op.at, id);
    } else if op.RecordRescreen? || op.DecideReview? {
      DecisionServesOne(v, op, id);
    } else {
      NoOtherJobs(v, op, id);
    }
  }

  lemma DecisionServesOne(v: VaultData, op: Op, id: Id)
    requires Inv(v) && (op.RecordRescreen? || op.DecideReview?) && HasJob(Apply(v, op).0, id) && !HasJob(v, id)
    ensures GivesJob(v, op, id)
  {
    if op.RecordRescreen? && op.id in v.records {
      var r := v.records[op.id];
      var state := RescreenedState(r, op.event.decision);
      var next := r.(lastScreenedAt := Some(op.event.at), rescreens := r.rescreens + [op.event], state := state);
      assert HasJob(Decided(v, next, op.event.decision == Block, op.event.at).0, id);
      DecidedServesOne(v, next, op.event.decision == Block, op.event.at, id);
    } else if op.DecideReview? && op.id in v.records {
      var r := v.records[op.id];
      var state := if op.review.outcome == Cleared then ClearedState(r) else Blocked;
      var next := r.(reviews := r.reviews + [op.review], state := state);
      assert HasJob(Decided(v, next, op.review.outcome == Condemned, op.review.at).0, id);
      DecidedServesOne(v, next, op.review.outcome == Condemned, op.review.at, id);
    }
  }

  lemma NoOtherJobs(v: VaultData, op: Op, id: Id)
    requires !op.RecoverBlocked? && !op.RecordRescreen? && !op.DecideReview? && !HasJob(v, id)
    ensures !HasJob(Apply(v, op).0, id)
  {
    if op.PurgeExpired? {
      PurgeErases(v, op.order, op.at);
    } else if ControlOp(op) {
      ControlOpsWriteControls(v, op);
    }
    assert Apply(v, op).0.jobs.Keys == v.jobs.Keys;
  }

  lemma BornJobIsKnown(ops: seq<Op>, k: nat, id: Id)
    requires k < |ops| && !HasJob(At(ops, k), id) && HasJob(At(ops, k + 1), id)
    ensures Known(At(ops, k), id)
  {
    AtStep(ops, k);
    RunKeepsInv(ops, k);
    JobBirth(At(ops, k), ops[k], id);
  }

  /** Every job belongs to a record that was stored at some time. */
  lemma {:induction false} JobsAreKnown(ops: seq<Op>, k: nat, id: Id)
    requires k <= |ops| && HasJob(At(ops, k), id)
    ensures Known(At(ops, k), id)
  {
    if k > 0 {
      if HasJob(At(ops, k - 1), id) {
        JobsAreKnown(ops, k - 1, id);
      } else {
        BornJobIsKnown(ops, k - 1, id);
      }
      KnownForever(ops, k - 1, k, id);
    }
  }

  /** Over any history, a record stored for the first time has no job, whatever state it is stored in. */
  lemma StoredWithoutJob(ops: seq<Op>, r: Record)
    requires r.id !in Run(Empty(), ops).records && Apply(Run(Empty(), ops), Put(r)).1.Stored?
    ensures r.id in Apply(Run(Empty(), ops), Put(r)).0.records && Apply(Run(Empty(), ops), Put(r)).0.records[r.id] == r
    ensures !HasJob(Apply(Run(Empty(), ops), Put(r)).0, r.id)
  {
    var v := Run(Empty(), ops);
    assert ops[..|ops|] == ops;
    if HasJob(v, r.id) {
      JobsAreKnown(ops, |ops|, r.id);
    }
    NoOtherJobs(v, Put(r), r.id);
  }

  lemma {:induction false} JobsForever(ops: seq<Op>, j: nat, k: nat, id: Id)
    requires j <= k <= |ops| && HasJob(At(ops, j), id)
    ensures HasJob(At(ops, k), id)
  {
    if j < k {
      JobsForever(ops, j, k - 1, id);
      JobsNext(ops, k - 1, id);
    }
  }

  lemma JobsNext(ops: seq<Op>, k: nat, id: Id)
    requires k < |ops| && HasJob(At(ops, k), id)
    ensures HasJob(At(ops, k + 1), id)
  {
    RunKeepsInv(ops, k);
    AtStep(ops, k);
    JobsStay(At(ops, k), ops[k], id);
  }

  /** A blocked record without a job was stored blocked. */
  lemma {:induction false} BlockedOrigin(ops: seq<Op>, n: nat, id: Id) returns (k: nat)
    requires n <= |ops| && IsBlocked(At(ops, n), id) && !HasJob(At(ops, n), id)
    ensures k < n && StoresBlocked(At(ops, k), ops[k], id)
  {
    var v, op := At(ops, n - 1), ops[n - 1];
    AtStep(ops, n - 1);
    RunKeepsInv(ops, n - 1);
    BlockedStep(v, op, id);
    if StoresBlocked(v, op, id) {
      k := n - 1;
    } else {
      if HasJob(v, id) {
        JobsStay(v, op, id);
      }
      k := BlockedOrigin(ops, n - 1, id);
    }
  }

  /** Stored blocked at position k, and neither condemned nor recovered since. */
  ghost predicate LeftBlocked(ops: seq<Op>, k: nat, id: Id) {
    && k < |ops| && StoresBlocked(At(ops, k), ops[k], id)
    && forall i: nat :: k < i < |ops| ==> !GivesJob(At(ops, i), ops[i], id)
  }

  lemma StoredBlockedHasNoJob(ops: seq<Op>, k: nat, id: Id)
    requires k < |ops| && StoresBlocked(At(ops, k), ops[k], id)
    ensures !HasJob(At(ops, k + 1), id)
  {
    AtStep(ops, k);
    StoredWithoutJob(ops[..k], ops[k].record);
  }

  lemma StaysWithoutJob(ops: seq<Op>, n: nat, id: Id)
    requires n < |ops| && !HasJob(At(ops, n), id) && !GivesJob(At(ops, n), ops[n], id)
    ensures !HasJob(At(ops, n + 1), id)
  {
    AtStep(ops, n);
    RunKeepsInv(ops, n);
    if HasJob(At(ops, n + 1), id) {
      JobBirth(At(ops, n), ops[n], id);
    }
  }

  lemma {:induction false} LeftBlockedHasNoJob(ops: seq<Op>, k: nat, n: nat, id: Id)
    requires LeftBlocked(ops, k, id) && k < n <= |ops|
    ensures !HasJob(At(ops, n), id)
  {
    if n == k + 1 {
      StoredBlockedHasNoJob(ops, k, id);
    } else {
      LeftBlockedHasNoJob(ops, k, n - 1, id);
      StaysWithoutJob(ops, n - 1, id);
    }
  }

  lemma GivenJobStays(ops: seq<Op>, i: nat, id: Id)
    requires i < |ops| && GivesJob(At(ops, i), ops[i], id)
    ensures HasJob(Run(Empty(), ops), id)
  {
    assert ops[..|ops|] == ops;
    RunKeepsInv(ops, i);
    GivenJobIsThere(At(ops, i), ops[i], id);
    AtStep(ops, i);
    JobsForever(ops, i + 1, |ops|, id);
  }

  lemma JoblessIsLeftBlocked(ops: seq<Op>, id: Id) returns (k: nat)
    requires IsBlocked(Run(Empty(), ops), id) && !HasJob(Run(Empty(), ops), id)
    ensures LeftBlocked(ops, k, id)
  {
    assert ops[..|ops|] == ops;
    k := BlockedOrigin(ops, |ops|, id);
    forall i: nat | k < i < |ops| ensures !GivesJob(At(ops, i), ops[i], id) {
      if GivesJob(At(ops, i), ops[i], id) {
        GivenJobStays(ops, i, id);
      }
    }
  }

  /**
   * A blocked record is without a revocation job exactly when it was stored already blocked and has been
   * neither condemned by a rescreening or a review nor recovered since.
   */
  lemma BlockedWithoutJob(ops: seq<Op>, id: Id)
    requires IsBlocked(Run(Empty(), ops), id)
    ensures !HasJob(Run(Empty(), ops), id) <==> exists k: nat :: LeftBlocked(ops, k, id)
  {
    if !HasJob(Run(Empty(), ops), id) {
      var k := JoblessIsLeftBlocked(ops, id);
    }
    if k: nat :| LeftBlocked(ops, k, id) {
      assert ops[..|ops|] == ops;
      LeftBlockedHasNoJob(ops, k, |ops|, id);
    }
  }

  /** After recovery over all records every blocked one has a job, however it was blocked; recovery never fails. */
  lemma RecoveryIsComplete(ops: seq<Op>, order: seq<Id>, now: int, id: Id)
    requires forall k :: k in Run(Empty(), ops).records ==> k in order
    ensures !Apply(Run(Empty(), ops), RecoverBlocked(order, now)).1.Threw?
    ensures var t := Apply(Run(Empty(), ops), RecoverBlocked(order, now)).0;
            IsBlocked(t, id) ==> HasJob(t, id)
  {
    var v := Run(Empty(), ops);
    assert ops[..|ops|] == ops;
    RunKeepsInv(ops, |ops|);
    RecoverKeepsInv(v, order, now);
    RecoverKeepsRecords(v, order, now);
    if id in v.records && v.records[id].state == Blocked {
      RecoveryCovers(v, order, now, id);
    }
  }
}
