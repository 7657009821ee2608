/**
 * The evidence vault (pipeline/vault.ts): retained records, holds, retention extensions, two-person
 * deletion and the revocation outbox. A mutation that throws leaves the stored data unchanged.
 * Keyed digests of snapshots are the snapshots themselves, which no two different snapshots share.
 */
module EvidenceVault {
  import opened Prelude

  type Id = string
  type Label = string

  datatype RecordState = Pending | UnderReview | Active | Blocked | Rejected

  datatype Decision = Allow | Refer | Block

  datatype Disposition = Unchanged | SourceRevoked | NotIssued

  datatype Rescreen = Rescreen(at: int, decision: Decision, lists: nat)

  datatype ReviewOutcome = Cleared | Condemned

  datatype Review = Review(at: int, operator: Label, outcome: ReviewOutcome, reason: Label)

  /** Hashes and addresses are compared without regard to letter case: equal values are equal names. */
  datatype Source = Source(observedAt: int, chainId: int, hash: nat, address: nat, hubMaterialized: bool)

  datatype RetentionPolicy = RetentionPolicy(deleteAt: int, customer: nat, reference: Label, disposition: Disposition)

  datatype Record = Record(
    id: Id, wallet: string, fullName: string, evidenceHash: nat, content: nat,
    processingCustomer: Option<nat>, policy: Option<RetentionPolicy>, state: RecordState,
    createdAt: int, retentionUntil: int, lastScreenedAt: Option<int>,
    rescreens: seq<Rescreen>, reviews: seq<Review>, source: Option<Source>)

  datatype Signed = Signed(hash: nat, raw: Option<nat>, chainId: int, source: nat)

  datatype JobState = Queued | Prepared | Confirmed

  /** The event name of a revocation: record and time; the time is digits, so the pair is the name. */
  datatype JobId = JobId(record: Id, at: int)

  datatype Job = Job(
    id: JobId, wallet: string, state: JobState, target: Option<(int, nat)>, transaction: Option<Signed>,
    confirmedAt: Option<int>, lastError: Option<string>, observations: seq<nat>)

  datatype Hold = Hold(id: Label, operator: Label, reference: Label, at: int, release: Option<(Label, Label, int)>)

  datatype Extension = Extension(until: int, operator: Label, reference: Label, at: int)

  datatype Fingerprint = Fingerprint(record: Record, minimumUntil: Option<int>, extensions: seq<Extension>,
      holds: seq<Hold>, jobs: map<JobId, Job>)

  datatype Approval = Approval(operator: Label, at: int)

  datatype DeletionRequest = DeletionRequest(
    id: nat, fingerprint: Fingerprint, requestedAt: int, operator: Label, policyRef: Label, serviceRef: Label,
    disposition: Disposition, automatic: bool, approval: Option<Approval>)

  datatype Controls = Controls(minimumUntil: Option<int>, extensions: seq<Extension>, holds: seq<Hold>,
      requests: seq<DeletionRequest>)

  datatype Erasure = Erasure(record: Id, at: int, reason: Label, request: nat)

  datatype VaultData = VaultData(revision: nat, records: map<Id, Record>, erasures: seq<Erasure>,
      jobs: map<JobId, Job>, retention: map<Id, Controls>)

  /** What an operator reviewed: the record, its jobs and its retention controls. */
  datatype Basis = Basis(record: Record, jobs: map<JobId, Job>, controls: Option<Controls>)

  datatype Blocker =
    | InvalidRetention | RetentionNotExpired | RecordTimeInvalid | LegalHold | IssuancePending | ReviewPending
    | RevocationPending | RevocationNotReconciled | NotApproved | RequestStale | ApprovalTimeInvalid

  datatype Failure =
    | Incomplete | ErasedRecord | InvalidTimestamp | InvalidReference | RetentionPrecedesCreation | PolicyMismatch
    | Conflict | UnknownRecord | EvidenceMismatch | InvalidObservation | RescreenConflict | TerminalState | Backdated
    | ReviewConflict | OpenRevocation | NotAnExtension | HoldIdUsed | UnknownHold
    | DeletionBlocked(blockers: set<Blocker>)
    | DispositionUnsupported | RequestNotCurrent | SameOperator | AlreadyApproved | UnknownJob | JobIdUsed
    | AlreadyConfirmed | DifferentTransaction | NoTransaction | JobChanged

  datatype Outcome = Done | Stored(record: Record) | Requested(request: DeletionRequest) | Erased(found: bool)
      | Purged(count: nat) | Ready(job: Job) | Threw(why: Failure)

  datatype DeletionInput = DeletionInput(operator: Label, policyRef: Label, serviceRef: Label,
      disposition: Disposition, automatic: bool)

  /** order is the iteration order of the records; request is the random identifier drawn. */
  datatype Op =
    | Put(record: Record)
    | RecordMaterialization(id: Id, evidenceHash: nat)
    | RecordSourceConfirmation(id: Id, evidenceHash: nat, source: Source)
    | RecordRescreen(id: Id, event: Rescreen, expected: Record)
    | DecideReview(id: Id, review: Review, basis: Basis)
    | ExtendRetention(id: Id, until: int, operator: Label, reference: Label, at: int)
    | PlaceHold(id: Id, hold: Label, operator: Label, reference: Label, at: int)
    | ReleaseHold(id: Id, hold: Label, operator: Label, reference: Label, at: int)
    | RequestDeletion(id: Id, input: DeletionInput, at: int, request: nat)
    | ApproveDeletion(id: Id, request: nat, operator: Label, at: int)
    | Erase(id: Id, request: nat, at: int)
    | PurgeExpired(order: seq<Id>, at: int)
    | RecoverBlocked(order: seq<Id>, at: int)
    | PrepareRevocation(job: JobId, transaction: Signed)
    | FinishRevocation(job: JobId, at: int)
    | FailRevocation(job: JobId, error: string, minedRevert: bool)
    /** fits: the observation matches the job's deployment and is neither stale nor backdated. */
    | RecordObservation(job: JobId, known: Job, observation: nat, fits: bool)

  // ---------- Checks ----------

  predicate Timestamp(t: int) {
    0 <= t <= MAX_SAFE_INTEGER
  }

  predicate LabelStart(c: char) {
    'A' <= c <= 'Z' || 'a' <= c <= 'z' || '0' <= c <= '9'
  }

  predicate Reference(s: Label) {
    1 <= |s| <= 128 && LabelStart(s[0]) && forall c :: c in s ==> LabelStart(c) || c in "_.:-"
  }

  function JobsOf(v: VaultData, id: Id): map<JobId, Job> {
    map j | j in v.jobs && j.record == id :: v.jobs[j]
  }

  predicate AnyOpen(jobs: map<JobId, Job>) {
    exists j :: j in jobs && jobs[j].state != Confirmed
  }

  predicate AnyConfirmed(jobs: map<JobId, Job>) {
    exists j :: j in jobs && jobs[j].state == Confirmed
  }

  function ControlsOf(v: VaultData, id: Id): Controls {
    if id in v.retention then v.retention[id] else Controls(None, [], [], [])
  }

  function Deadline(v: VaultData, r: Record): int {
    var m := ControlsOf(v, r.id).minimumUntil;
    Max(r.retentionUntil, if m.Some? then m.value else 0)
  }

  predicate OpenHold(c: Controls) {
    exists h :: h in c.holds && h.release.None?
  }

  predicate SoundDates(v: VaultData, r: Record) {
    && r.retentionUntil <= MAX_SAFE_INTEGER && Deadline(v, r) <= MAX_SAFE_INTEGER && r.createdAt <= MAX_SAFE_INTEGER
    && 0 <= r.createdAt <= r.retentionUntil && r.createdAt <= Deadline(v, r)
  }

  function When(c: bool, b: Blocker): set<Blocker> {
    if c then {b} else {}
  }

  function SafetyBlockers(v: VaultData, r: Record, now: int): set<Blocker> {
    var jobs := JobsOf(v, r.id);
    When(!SoundDates(v, r), InvalidRetention)
    + When(SoundDates(v, r) && now < Deadline(v, r), RetentionNotExpired)
    + When(now < r.createdAt, RecordTimeInvalid)
    + When(OpenHold(ControlsOf(v, r.id)), LegalHold)
    + When(r.state == Pending, IssuancePending)
    + When(r.state == UnderReview, ReviewPending)
    + When(AnyOpen(jobs), RevocationPending)
    + When(r.state == Blocked && !AnyConfirmed(jobs), RevocationNotReconciled)
  }

  function FingerprintOf(v: VaultData, r: Record): Fingerprint {
    var c := ControlsOf(v, r.id);
    Fingerprint(r, c.minimumUntil, c.extensions, c.holds, JobsOf(v, r.id))
  }

  function Last<T>(s: seq<T>): Option<T> {
    if s == [] then None else Some(s[|s| - 1])
  }

  function DeletionBlockers(v: VaultData, r: Record, now: int): set<Blocker> {
    var request := Last(ControlsOf(v, r.id).requests);
    SafetyBlockers(v, r, now)
    + When(request.None? || request.value.approval.None?, NotApproved)
    + When(request.Some? && request.value.fingerprint != FingerprintOf(v, r), RequestStale)
    + When(request.Some? && request.value.approval.Some?
           && (now < request.value.approval.value.at || request.value.approval.value.at < request.value.requestedAt),
               ApprovalTimeInvalid)
  }

  function LatestReview(reviews: seq<Review>, from: int): int {
    if reviews == [] then from else Max(LatestReview(reviews[..|reviews| - 1], from), reviews[|reviews| - 1].at)
  }

  function LatestDecision(r: Record): int {
    LatestReview(r.reviews, Max(r.createdAt, if r.lastScreenedAt.Some? then r.lastScreenedAt.value else 0))
  }

  /** State after a favourable decision: an unfinished issuance stays pending. */
  function ClearedState(r: Record): RecordState {
    if r.state == Pending || (r.source.Some? && !r.source.value.hubMaterialized) then Pending else Active
  }

  // ---------- Specification of each operation ----------

  function WithRecord(v: VaultData, r: Record): VaultData {
    v.(records := v.records[r.id := r])
  }

  function WithControls(v: VaultData, id: Id, c: Controls): VaultData {
    v.(retention := v.retention[id := c])
  }

  function WithJob(v: VaultData, j: Job): VaultData {
    v.(jobs := v.jobs[j.id := j])
  }

  function PutRecord(v: VaultData, r: Record): (VaultData, Outcome) {
    if r.id == "" || r.wallet == "" || r.fullName == "" then (v, Threw(Incomplete))
    else if exists e :: e in v.erasures && e.record == r.id then (v, Threw(ErasedRecord))
    else if !Timestamp(r.createdAt) || !Timestamp(r.retentionUntil) then (v, Threw(InvalidTimestamp))
    else if r.retentionUntil < r.createdAt then (v, Threw(RetentionPrecedesCreation))
    else if r.policy.Some? && (r.policy.value.deleteAt != r.retentionUntil
              || (r.processingCustomer.Some? && r.policy.value.customer != r.processingCustomer.value))
                  then (v, Threw(PolicyMismatch))
    else if r.id in v.records then
      if v.records[r.id].evidenceHash != r.evidenceHash then (v, Threw(Conflict)) else (v, Stored(v.records[r.id]))
    else (WithRecord(v, r), Stored(r))
  }

  function Materialize(v: VaultData, id: Id, evidenceHash: nat): (VaultData, Outcome) {
    if id !in v.records then (v, Threw(UnknownRecord))
    else if v.records[id].evidenceHash != evidenceHash then (v, Threw(EvidenceMismatch))
    else
      var r := v.records[id];
      var source := if r.source.Some? then Some(r.source.value.(hubMaterialized := true)) else None;
      (WithRecord(v, r.(source := source, state := if r.state == Pending then Active else r.state)), Done)
  }

  predicate SameIssuance(a: Source, b: Source) {
    a.hash == b.hash && a.chainId == b.chainId && a.address == b.address
  }

  function ConfirmSource(v: VaultData, id: Id, evidenceHash: nat, o: Source): (VaultData, Outcome) {
    if id !in v.records then (v, Threw(UnknownRecord))
    else if v.records[id].evidenceHash != evidenceHash then (v, Threw(EvidenceMismatch))
    else if !Timestamp(o.observedAt) then (v, Threw(InvalidTimestamp))
    else if !(0 < o.chainId <= MAX_SAFE_INTEGER) || o.observedAt < v.records[id].createdAt
        then (v, Threw(InvalidObservation))
    else
      var r := v.records[id];
      if r.source.Some? then (v, if SameIssuance(r.source.value, o) then Done else Threw(Conflict))
      else (WithRecord(v, r.(source := Some(o.(hubMaterialized := false)))), Done)
  }

  /** One unconfirmed job per record: nothing is queued behind an open one. */
  function Queue(v: VaultData, r: Record, at: int): Result<VaultData, Failure> {
    var id := JobId(r.id, at);
    if AnyOpen(JobsOf(v, r.id)) then Ok(v)
    else if id in v.jobs then Err(JobIdUsed)
    else
      var target := if r.source.Some? then Some((r.source.value.chainId, r.source.value.address)) else None;
      Ok(WithJob(v, Job(id, r.wallet, Queued, target, None, None, None, [])))
  }

  /** Stores a decided record and, when it was condemned, queues its revocation. */
  function Decided(v: VaultData, r: Record, condemned: bool, at: int): (VaultData, Outcome) {
    var t := WithRecord(v, r);
    if !condemned then (t, Stored(r))
    else
      match Queue(t, r, at)
      case Ok(u) => (u, Stored(r))
      case Err(why) => (v, Threw(why))
  }

  function RescreenedState(r: Record, decision: Decision): RecordState {
    match decision
    case Block => Blocked
    case Refer => UnderReview
    case Allow => ClearedState(r)
  }

  function RescreenRecord(v: VaultData, id: Id, event: Rescreen, expected: Record): (VaultData, Outcome) {
    if id !in v.records || v.records[id] != expected then (v, Threw(RescreenConflict))
    else
      var r := v.records[id];
      if r.state == Blocked || r.state == Rejected then (v, Threw(TerminalState))
      else if !Timestamp(event.at) then (v, Threw(InvalidTimestamp))
      else if event.at < LatestDecision(r) then (v, Threw(Backdated))
      else
        var state := RescreenedState(r, event.decision);
        Decided(v, r.(lastScreenedAt := Some(event.at), rescreens := r.rescreens + [event], state := state),
            event.decision == Block, event.at)
  }

  function BasisOf(v: VaultData, r: Record): Basis {
    Basis(r, JobsOf(v, r.id), if r.id in v.retention then Some(v.retention[r.id]) else None)
  }

  function ReviewRecord(v: VaultData, id: Id, review: Review, basis: Basis): (VaultData, Outcome) {
    if id !in v.records || BasisOf(v, v.records[id]) != basis then (v, Threw(ReviewConflict))
    else if !Timestamp(review.at) then (v, Threw(InvalidTimestamp))
    else if !Reference(review.operator) || !Reference(review.reason) then (v, Threw(InvalidReference))
    else
      var r := v.records[id];
      if review.at < LatestDecision(r) then (v, Threw(Backdated))
      else if review.outcome == Cleared && AnyOpen(JobsOf(v, id)) then (v, Threw(OpenRevocation))
      else
        var state := if review.outcome == Cleared then ClearedState(r) else Blocked;
        Decided(v, r.(reviews := r.reviews + [review], state := state), review.outcome == Condemned, review.at)
  }

  function Extend(v: VaultData, id: Id, until: int, operator: Label, reference: Label, at: int): (VaultData, Outcome) {
    if !Timestamp(at) || !Timestamp(until) then (v, Threw(InvalidTimestamp))
    else if !Reference(operator) || !Reference(reference) then (v, Threw(InvalidReference))
    else if id !in v.records then (v, Threw(UnknownRecord))
    else
      var c := ControlsOf(v, id);
      if until <= Max(v.records[id].retentionUntil, if c.minimumUntil.Some? then c.minimumUntil.value else 0)
          then (v, Threw(NotAnExtension))
      else (WithControls(v, id, c.(minimumUntil := Some(until),
          extensions := c.extensions + [Extension(until, operator, reference, at)])), Done)
  }

  predicate HoldKnown(c: Controls, hold: Label) {
    exists h :: h in c.holds && h.id == hold
  }

  function PlaceHoldOn(v: VaultData, id: Id, hold: Label, operator: Label, reference: Label, at: int)
    : (VaultData, Outcome)
  {
    if id !in v.records then (v, Threw(UnknownRecord))
    else if !Timestamp(at) then (v, Threw(InvalidTimestamp))
    else if !Reference(hold) || !Reference(operator) || !Reference(reference) then (v, Threw(InvalidReference))
    else
      var c := ControlsOf(v, id);
      if HoldKnown(c, hold) then (v, Threw(HoldIdUsed))
      else (WithControls(v, id, c.(holds := c.holds + [Hold(hold, operator, reference, at, None)])), Done)
  }

  /** Position of the first hold of that name. */
  function FindHold(holds: seq<Hold>, hold: Label): (k: nat)
    ensures k <= |holds| && (k < |holds| ==> holds[k].id == hold)
  {
    if holds == [] then 0 else if holds[0].id == hold then 0 else 1 + FindHold(holds[1..], hold)
  }

  function ReleaseHoldOn(v: VaultData, id: Id, hold: Label, operator: Label, reference: Label, at: int)
    : (VaultData, Outcome)
  {
    if id !in v.records then (v, Threw(UnknownRecord))
    else if !Timestamp(at) then (v, Threw(InvalidTimestamp))
    else if !Reference(operator) || !Reference(reference) then (v, Threw(InvalidReference))
    else
      var c := ControlsOf(v, id);
      var k := FindHold(c.holds, hold);
      if k == |c.holds| || c.holds[k].release.Some? then (v, Threw(UnknownHold))
      else if at < c.holds[k].at then (v, Threw(Backdated))
      else (WithControls(v, id, c.(holds := c.holds[k := c.holds[k].(release := Some((operator, reference, at)))])),
          Done)
  }

  function RequestDeletionOf(v: VaultData, id: Id, input: DeletionInput, at: int, request: nat): (VaultData, Outcome) {
    if !Timestamp(at) then (v, Threw(InvalidTimestamp))
    else if !Reference(input.operator) || !Reference(input.policyRef) ||
        !Reference(input.serviceRef) then (v, Threw(InvalidReference))
    else if id !in v.records then (v, Threw(UnknownRecord))
    else
      var r := v.records[id];
      var blockers := SafetyBlockers(v, r, at) - {RetentionNotExpired};
      if r.policy.Some? && (input.policyRef != r.policy.value.reference ||
          input.disposition != r.policy.value.disposition) then (v, Threw(PolicyMismatch))
      else if blockers != {} then (v, Threw(DeletionBlocked(blockers)))
      else if (input.disposition == SourceRevoked && !AnyConfirmed(JobsOf(v, id)))
              || (input.disposition == NotIssued && r.state != Rejected)
              || (r.state == Blocked && input.disposition != SourceRevoked) then (v, Threw(DispositionUnsupported))
      else
        var c := ControlsOf(v, id);
        var q := DeletionRequest(request, FingerprintOf(v, r), at, input.operator, input.policyRef, input.serviceRef,
            input.disposition, input.automatic, None);
        (WithControls(v, id, c.(requests := c.requests + [q])), Requested(q))
  }

  function ApproveDeletionOf(v: VaultData, id: Id, request: nat, operator: Label, at: int): (VaultData, Outcome) {
    if !Timestamp(at) then (v, Threw(InvalidTimestamp))
    else if !Reference(operator) then (v, Threw(InvalidReference))
    else if id !in v.records then (v, Threw(UnknownRecord))
    else
      var r := v.records[id];
      var c := ControlsOf(v, id);
      var current := Last(c.requests);
      if current.None? || current.value.id != request then (v, Threw(RequestNotCurrent))
      else
        var q := current.value;
        var blockers := SafetyBlockers(v, r, at) - {RetentionNotExpired};
        if q.operator == operator then (v, Threw(SameOperator))
        else if q.approval.Some? then (v, Threw(AlreadyApproved))
        else if at < q.requestedAt then (v, Threw(Backdated))
        else if q.fingerprint != FingerprintOf(v, r) then (v, Threw(DeletionBlocked({RequestStale})))
        else if blockers != {} then (v, Threw(DeletionBlocked(blockers)))
        else (WithControls(v, id, c.(requests := c.requests[|c.requests| - 1 :=
            q.(approval := Some(Approval(operator, at)))])), Done)
  }

  function EraseRecord(v: VaultData, id: Id, q: DeletionRequest, at: int): VaultData {
    v.(records := v.records - {id}, erasures := v.erasures + [Erasure(id, at, q.policyRef, q.id)])
  }

  function EraseOne(v: VaultData, id: Id, request: nat, at: int): (VaultData, Outcome) {
    if !Timestamp(at) then (v, Threw(InvalidTimestamp))
    else if id !in v.records then (v, Erased(false))
    else
      var r := v.records[id];
      var current := Last(ControlsOf(v, id).requests);
      if current.None? || current.value.id != request then (v, Threw(RequestNotCurrent))
      else
        var blockers := DeletionBlockers(v, r, at);
        if blockers != {} then (v, Threw(DeletionBlocked(blockers)))
            else (EraseRecord(v, id, current.value, at), Erased(true))
  }

  /** The record may go without an operator. */
  predicate Due(v: VaultData, id: Id, now: int) {
    var request := Last(ControlsOf(v, id).requests);
    id in v.records && request.Some? && request.value.automatic && DeletionBlockers(v, v.records[id], now) == {}
  }

  function PurgeAll(v: VaultData, order: seq<Id>, now: int): (VaultData, nat) {
    if order == [] then (v, 0)
    else
      var (t, n) := PurgeAll(v, order[..|order| - 1], now);
      var id := order[|order| - 1];
      if Due(t, id, now) then (EraseRecord(t, id, Last(ControlsOf(t, id).requests).value, now), n + 1) else (t, n)
  }

  function RecoverAll(v: VaultData, order: seq<Id>, now: int): Result<VaultData, Failure> {
    if order == [] then Ok(v)
    else
      var before := RecoverAll(v, order[..|order| - 1], now);
      var id := order[|order| - 1];
      if before.Err? then before else Recovered(before.value, id, now)
  }

  /** A blocked record without any job gets one. */
  function Recovered(v: VaultData, id: Id, now: int): Result<VaultData, Failure> {
    if id in v.records && v.records[id].state == Blocked && JobsOf(v, id) == map[] then Queue(v, v.records[id], now)
    else Ok(v)
  }

  function PrepareJob(v: VaultData, id: JobId, t: Signed): (VaultData, Outcome) {
    if id !in v.jobs then (v, Threw(UnknownJob))
    else if v.jobs[id].state == Confirmed then (v, Threw(AlreadyConfirmed))
    else if v.jobs[id].transaction.Some? && v.jobs[id].transaction.value.hash != t.hash
        then (v, Threw(DifferentTransaction))
    else
      var j := v.jobs[id].(transaction := Some(t), state := Prepared);
      (v.(jobs := v.jobs[id := j]), Ready(j))
  }

  function FinishJob(v: VaultData, id: JobId, at: int): (VaultData, Outcome) {
    if id !in v.jobs then (v, Threw(UnknownJob))
    else if v.jobs[id].transaction.None? then (v, Threw(NoTransaction))
    else
      var t := v.jobs[id].transaction.value.(raw := None);
      (v.(jobs := v.jobs[id := v.jobs[id].(state := Confirmed, confirmedAt := Some(at), lastError := None,
          transaction := Some(t))]), Done)
  }

  function FailJob(v: VaultData, id: JobId, error: string, minedRevert: bool): (VaultData, Outcome) {
    if id !in v.jobs then (v, Threw(UnknownJob))
    else if v.jobs[id].state == Confirmed then (v, Threw(AlreadyConfirmed))
    else
      var j := v.jobs[id].(lastError := Some(if |error| <= 200 then error else error[..200]));
      (v.(jobs := v.jobs[id := if minedRevert then j.(state := Queued, transaction := None) else j]), Done)
  }

  function ObserveJob(v: VaultData, id: JobId, known: Job, observation: nat, fits: bool): (VaultData, Outcome) {
    if id !in v.jobs || v.jobs[id] != known then (v, Threw(JobChanged))
    else if v.jobs[id].transaction.None? || !fits then (v, Threw(InvalidObservation))
    else if Last(v.jobs[id].observations) == Some(observation) then (v, Done)
    else (v.(jobs := v.jobs[id := v.jobs[id].(observations := v.jobs[id].observations + [observation])]), Done)
  }

  function Operate(v: VaultData, op: Op): (VaultData, Outcome) {
    match op
    case Put(r) => PutRecord(v, r)
    case RecordMaterialization(id, hash) => Materialize(v, id, hash)
    case RecordSourceConfirmation(id, hash, o) => ConfirmSource(v, id, hash, o)
    case RecordRescreen(id, event, expected) => RescreenRecord(v, id, event, expected)
    case DecideReview(id, review, basis) => ReviewRecord(v, id, review, basis)
    case ExtendRetention(id, until, operator, reference, at) => Extend(v, id, until, operator, reference, at)
    case PlaceHold(id, hold, operator, reference, at) => PlaceHoldOn(v, id, hold, operator, reference, at)
    case ReleaseHold(id, hold, operator, reference, at) => ReleaseHoldOn(v, id, hold, operator, reference, at)
    case RequestDeletion(id, input, at, request) => RequestDeletionOf(v, id, input, at, request)
    case ApproveDeletion(id, request, operator, at) => ApproveDeletionOf(v, id, request, operator, at)
    case Erase(id, request, at) => EraseOne(v, id, request, at)
    case PurgeExpired(order, at) =>
      if !Timestamp(at) then (v, Threw(InvalidTimestamp))
          else (PurgeAll(v, order, at).0, Purged(PurgeAll(v, order, at).1))
    case RecoverBlocked(order, at) =>
      (match RecoverAll(v, order, at) case Ok(t) => (t, Done) case Err(why) => (v, Threw(why)))
    case PrepareRevocation(job, t) => PrepareJob(v, job, t)
    case FinishRevocation(job, at) => FinishJob(v, job, at)
    case FailRevocation(job, error, minedRevert) => FailJob(v, job, error, minedRevert)
    case RecordObservation(job, known, observation, fits) => ObserveJob(v, job, known, observation, fits)
  }

  predicate ControlOp(op: Op) {
    op.ExtendRetention? || op.PlaceHold? || op.ReleaseHold? || op.RequestDeletion? || op.ApproveDeletion?
  }

  /** One mutation: a throw leaves the data as it was, anything else is the next revision. */
  function Apply(v: VaultData, op: Op): (VaultData, Outcome) {
    var (t, out) := Operate(v, op);
    if out.Threw? then (v, out) else (t.(revision := v.revision + 1), out)
  }

  // ---------- The vault, changed in place ----------

  /** data is the decrypted file; the bodies of mutate read and write it while they hold the writer lock. */
  class Vault {
    var data: VaultData

    constructor ()
      ensures data == VaultData(0, map[], [], map[], map[])
    {
      data := VaultData(0, map[], [], map[], map[]);
    }

    method Mutate(op: Op) returns (out: Outcome)
      modifies this
      ensures (data, out) == Apply(old(data), op)
    {
      var before := data;
      match op {
        case Put(_) => out := this.Put(op.record);
        case RecordMaterialization(_, _) => out := this.RecordMaterialization(op.id, op.evidenceHash);
        case RecordSourceConfirmation(_, _, _) => out :=
            this.RecordSourceConfirmation(op.id, op.evidenceHash, op.source);
        case RecordRescreen(_, _, _) => out := this.RecordRescreen(op.id, op.event, op.expected);
        case DecideReview(_, _, _) => out := this.DecideReview(op.id, op.review, op.basis);
        case PurgeExpired(_, _) => out := this.PurgeExpired(op.order, op.at);
        case RecoverBlocked(_, _) => out := this.RecoverBlocked(op.order, op.at);
        case PrepareRevocation(_, _) => out := this.PrepareRevocation(op.job, op.transaction);
        case FinishRevocation(_, _) => out := this.FinishRevocation(op.job, op.at);
        case FailRevocation(_, _, _) => out := this.FailRevocation(op.job, op.error, op.minedRevert);
        case RecordObservation(_, _, _, _) => out := this.RecordObservation(op.job, op.known, op.observation, op.fits);
        case _ => out := this.Retain(op);
      }
      if out.Threw? {
        data := before;
      } else {
        data := data.(revision := before.revision + 1);
      }
    }

    method Retain(op: Op) returns (out: Outcome)
      requires ControlOp(op) || op.Erase?
      modifies this
      ensures out == Operate(old(data), op).1
      ensures !out.Threw? ==> data == Operate(old(data), op).0
    {
      match op {
        case ExtendRetention(_, _, _, _, _) => out := this.ExtendRetention(op.id, op.until, op.operator, op.reference,
            op.at);
        case PlaceHold(_, _, _, _, _) => out := this.PlaceHold(op.id, op.hold, op.operator, op.reference, op.at);
        case ReleaseHold(_, _, _, _, _) => out := this.ReleaseHold(op.id, op.hold, op.operator, op.reference, op.at);
        case RequestDeletion(_, _, _, _) => out := this.RequestDeletion(op.id, op.input, op.at, op.request);
        case ApproveDeletion(_, _, _, _) => out := this.ApproveDeletion(op.id, op.request, op.operator, op.at);
        case Erase(_, _, _) => out := this.Erase(op.id, op.request, op.at);
      }
    }

    method Put(r: Record) returns (out: Outcome)
      modifies this
      ensures out == PutRecord(old(data), r).1
      ensures !out.Threw? ==> data == PutRecord(old(data), r).0
    {
      if r.id == "" || r.wallet == "" || r.fullName == "" {
        return Threw(Incomplete);
      }
      for k := 0 to |data.erasures|
        invariant forall i :: 0 <= i < k ==> data.erasures[i].record != r.id
        invariant data == old(data)
      {
        if data.erasures[k].record == r.id {
          return Threw(ErasedRecord);
        }
      }
      if !Timestamp(r.createdAt) || !Timestamp(r.retentionUntil) {
        return Threw(InvalidTimestamp);
      }
      if r.retentionUntil < r.createdAt {
        return Threw(RetentionPrecedesCreation);
      }
      if r.policy.Some? && (r.policy.value.deleteAt != r.retentionUntil
         || (r.processingCustomer.Some? && r.policy.value.customer != r.processingCustomer.value)) {
        return Threw(PolicyMismatch);
      }
      if r.id in data.records {
        return if data.records[r.id].evidenceHash != r.evidenceHash then Threw(Conflict)
            else Stored(data.records[r.id]);
      }
      data := data.(records := data.records[r.id := r]);
      return Stored(r);
    }

    method RecordMaterialization(id: Id, evidenceHash: nat) returns (out: Outcome)
      modifies this
      ensures out == Materialize(old(data), id, evidenceHash).1
      ensures !out.Threw? ==> data == Materialize(old(data), id, evidenceHash).0
    {
      if id !in data.records {
        return Threw(UnknownRecord);
      }
      var r := data.records[id];
      if r.evidenceHash != evidenceHash {
        return Threw(EvidenceMismatch);
      }
      if r.source.Some? {
        r := r.(source := Some(r.source.value.(hubMaterialized := true)));
      }
      // A later compliance decision is not undone by a late callback.
      if r.state == Pending {
        r := r.(state := Active);
      }
      data := data.(records := data.records[r.id := r]);
      return Done;
    }

    method RecordSourceConfirmation(id: Id, evidenceHash: nat, o: Source) returns (out: Outcome)
      modifies this
      ensures out == ConfirmSource(old(data), id, evidenceHash, o).1
      ensures !out.Threw? ==> data == ConfirmSource(old(data), id, evidenceHash, o).0
    {
      if id !in data.records {
        return Threw(UnknownRecord);
      }
      var r := data.records[id];
      if r.evidenceHash != evidenceHash {
        return Threw(EvidenceMismatch);
      }
      if !Timestamp(o.observedAt) {
        return Threw(InvalidTimestamp);
      }
      if !(0 < o.chainId <= MAX_SAFE_INTEGER) || o.observedAt < r.createdAt {
        return Threw(InvalidObservation);
      }
      if r.source.Some? {
        return if SameIssuance(r.source.value, o) then Done else Threw(Conflict);
      }
      data := data.(records := data.records[r.id := r.(source := Some(o.(hubMaterialized := false)))]);
      return Done;
    }

    method QueueRevocation(r: Record, at: int) returns (failure: Option<Failure>)
      modifies this
      ensures match Queue(old(data), r, at)
              case Ok(t) => failure == None && data == t
              case Err(why) => failure == Some(why) && data == old(data)
    {
      var id := JobId(r.id, at);
      if exists j :: j in data.jobs && j.record == r.id && data.jobs[j].state != Confirmed {
        assert AnyOpen(JobsOf(data, r.id)) by {
          var j :| j in data.jobs && j.record == r.id && data.jobs[j].state != Confirmed;
          assert j in JobsOf(data, r.id);
        }
        return None;
      }
      if id in data.jobs {
        return Some(JobIdUsed);
      }
      var job := Job(id, r.wallet, Queued, None, None, None, None, []);
      if r.source.Some? {
        job := job.(target := Some((r.source.value.chainId, r.source.value.address)));
      }
      data := data.(jobs := data.jobs[id := job]);
      return None;
    }

    method Decide(r: Record, condemned: bool, at: int) returns (out: Outcome)
      modifies this
      ensures out == Decided(old(data), r, condemned, at).1
      ensures !out.Threw? ==> data == Decided(old(data), r, condemned, at).0
    {
      data := data.(records := data.records[r.id := r]);
      if condemned {
        var failure := QueueRevocation(r, at);
        if failure.Some? {
          return Threw(failure.value);
        }
      }
      return Stored(r);
    }

    method RecordRescreen(id: Id, event: Rescreen, expected: Record) returns (out: Outcome)
      modifies this
      ensures out == RescreenRecord(old(data), id, event, expected).1
      ensures !out.Threw? ==> data == RescreenRecord(old(data), id, event, expected).0
    {
      if id !in data.records || data.records[id] != expected {
        return Threw(RescreenConflict);
      }
      var r := data.records[id];
      if r.state == Blocked || r.state == Rejected {
        return Threw(TerminalState);
      }
      if !Timestamp(event.at) {
        return Threw(InvalidTimestamp);
      }
      var latest := LastDecision(r);
      if event.at < latest {
        return Threw(Backdated);
      }
      var state := RescreenedState(r, event.decision);
      r := r.(lastScreenedAt := Some(event.at), rescreens := r.rescreens + [event], state := state);
      out := Decide(r, event.decision == Block, event.at);
    }

    method LastDecision(r: Record) returns (latest: int)
      ensures latest == LatestDecision(r)
    {
      latest := Max(r.createdAt, if r.lastScreenedAt.Some? then r.lastScreenedAt.value else 0);
      ghost var from := latest;
      for k := 0 to |r.reviews|
        invariant latest == LatestReview(r.reviews[..k], from)
      {
        assert r.reviews[..k + 1][..k] == r.reviews[..k];
        latest := Max(latest, r.reviews[k].at);
      }
      assert r.reviews[..|r.reviews|] == r.reviews;
    }

    method DecideReview(id: Id, review: Review, basis: Basis) returns (out: Outcome)
      modifies this
      ensures out == ReviewRecord(old(data), id, review, basis).1
      ensures !out.Threw? ==> data == ReviewRecord(old(data), id, review, basis).0
    {
      if id !in data.records || BasisOf(data, data.records[id]) != basis {
        return Threw(ReviewConflict);
      }
      if !Timestamp(review.at) {
        return Threw(InvalidTimestamp);
      }
      if !Reference(review.operator) || !Reference(review.reason) {
        return Threw(InvalidReference);
      }
      var r := data.records[id];
      var latest := LastDecision(r);
      if review.at < latest {
        return Threw(Backdated);
      }
      if review.outcome == Cleared && AnyOpen(JobsOf(data, id)) {
        return Threw(OpenRevocation);
      }
      var state := if review.outcome == Cleared then ClearedState(r) else Blocked;
      r := r.(reviews := r.reviews + [review], state := state);
      out := Decide(r, review.outcome == Condemned, review.at);
    }

    method ExtendRetention(id: Id, until: int, operator: Label, reference: Label, at: int) returns (out: Outcome)
      modifies this
      ensures out == Extend(old(data), id, until, operator, reference, at).1
      ensures !out.Threw? ==> data == Extend(old(data), id, until, operator, reference, at).0
    {
      if !Timestamp(at) || !Timestamp(until) {
        return Threw(InvalidTimestamp);
      }
      if !Reference(operator) || !Reference(reference) {
        return Threw(InvalidReference);
      }
      if id !in data.records {
        return Threw(UnknownRecord);
      }
      var c := ControlsOf(data, id);
      if until <= Max(data.records[id].retentionUntil, if c.minimumUntil.Some? then c.minimumUntil.value else 0) {
        return Threw(NotAnExtension);
      }
      c := c.(minimumUntil := Some(until));
      c := c.(extensions := c.extensions + [Extension(until, operator, reference, at)]);
      data := data.(retention := data.retention[id := c]);
      return Done;
    }

    method PlaceHold(id: Id, hold: Label, operator: Label, reference: Label, at: int) returns (out: Outcome)
      modifies this
      ensures out == PlaceHoldOn(old(data), id, hold, operator, reference, at).1
      ensures !out.Threw? ==> data == PlaceHoldOn(old(data), id, hold, operator, reference, at).0
    {
      if id !in data.records {
        return Threw(UnknownRecord);
      }
      if !Timestamp(at) {
        return Threw(InvalidTimestamp);
      }
      if !Reference(hold) || !Reference(operator) || !Reference(reference) {
        return Threw(InvalidReference);
      }
      var c := ControlsOf(data, id);
      if HoldKnown(c, hold) {
        return Threw(HoldIdUsed);
      }
      data := data.(retention := data.retention[id := c.(holds :=
          c.holds + [Hold(hold, operator, reference, at, None)])]);
      return Done;
    }

    method ReleaseHold(id: Id, hold: Label, operator: Label, reference: Label, at: int) returns (out: Outcome)
      modifies this
      ensures out == ReleaseHoldOn(old(data), id, hold, operator, reference, at).1
      ensures !out.Threw? ==> data == ReleaseHoldOn(old(data), id, hold, operator, reference, at).0
    {
      if id !in data.records {
        return Threw(UnknownRecord);
      }
      if !Timestamp(at) {
        return Threw(InvalidTimestamp);
      }
      if !Reference(operator) || !Reference(reference) {
        return Threw(InvalidReference);
      }
      var c := ControlsOf(data, id);
      var k := FindHold(c.holds, hold);
      if k == |c.holds| || c.holds[k].release.Some? {
        return Threw(UnknownHold);
      }
      if at < c.holds[k].at {
        return Threw(Backdated);
      }
      c := c.(holds := c.holds[k := c.holds[k].(release := Some((operator, reference, at)))]);
      data := data.(retention := data.retention[id := c]);
      return Done;
    }

    method RequestDeletion(id: Id, input: DeletionInput, at: int, request: nat) returns (out: Outcome)
      modifies this
      ensures out == RequestDeletionOf(old(data), id, input, at, request).1
      ensures !out.Threw? ==> data == RequestDeletionOf(old(data), id, input, at, request).0
    {
      if !Timestamp(at) {
        return Threw(InvalidTimestamp);
      }
      if !Reference(input.operator) || !Reference(input.policyRef) || !Reference(input.serviceRef) {
        return Threw(InvalidReference);
      }
      if id !in data.records {
        return Threw(UnknownRecord);
      }
      var r := data.records[id];
      if r.policy.Some? && (input.policyRef != r.policy.value.reference ||
          input.disposition != r.policy.value.disposition) {
        return Threw(PolicyMismatch);
      }
      var blockers := SafetyBlockers(data, r, at) - {RetentionNotExpired};
      if blockers != {} {
        return Threw(DeletionBlocked(blockers));
      }
      var confirmed := AnyConfirmed(JobsOf(data, id));
      if (input.disposition == SourceRevoked && !confirmed)
         || (input.disposition == NotIssued && r.state != Rejected)
         || (r.state == Blocked && input.disposition != SourceRevoked) {
        return Threw(DispositionUnsupported);
      }
      var q := DeletionRequest(request, FingerprintOf(data, r), at, input.operator, input.policyRef, input.serviceRef,
          input.disposition, input.automatic, None);
      var c := ControlsOf(data, id);
      data := data.(retention := data.retention[id := c.(requests := c.requests + [q])]);
      return Requested(q);
    }

    method ApproveDeletion(id: Id, request: nat, operator: Label, at: int) returns (out: Outcome)
      modifies this
      ensures out == ApproveDeletionOf(old(data), id, request, operator, at).1
      ensures !out.Threw? ==> data == ApproveDeletionOf(old(data), id, request, operator, at).0
    {
      if !Timestamp(at) {
        return Threw(InvalidTimestamp);
      }
      if !Reference(operator) {
        return Threw(InvalidReference);
      }
      if id !in data.records {
        return Threw(UnknownRecord);
      }
      var r, c := data.records[id], ControlsOf(data, id);
      if c.requests == [] || c.requests[|c.requests| - 1].id != request {
        return Threw(RequestNotCurrent);
      }
      var q := c.requests[|c.requests| - 1];
      if q.operator == operator {
        return Threw(SameOperator);
      }
      if q.approval.Some? {
        return Threw(AlreadyApproved);
      }
      if at < q.requestedAt {
        return Threw(Backdated);
      }
      if q.fingerprint != FingerprintOf(data, r) {
        return Threw(DeletionBlocked({RequestStale}));
      }
      var blockers := SafetyBlockers(data, r, at) - {RetentionNotExpired};
      if blockers != {} {
        return Threw(DeletionBlocked(blockers));
      }
      c := c.(requests := c.requests[|c.requests| - 1 := q.(approval := Some(Approval(operator, at)))]);
      data := data.(retention := data.retention[id := c]);
      return Done;
    }

    method EraseApproved(id: Id, q: DeletionRequest, at: int)
      modifies this
      ensures data == EraseRecord(old(data), id, q, at)
    {
      data := data.(records := data.records - {id});
      data := data.(erasures := data.erasures + [Erasure(id, at, q.policyRef, q.id)]);
    }

    method Erase(id: Id, request: nat, at: int) returns (out: Outcome)
      modifies this
      ensures out == EraseOne(old(data), id, request, at).1
      ensures !out.Threw? ==> data == EraseOne(old(data), id, request, at).0
    {
      if !Timestamp(at) {
        return Threw(InvalidTimestamp);
      }
      if id !in data.records {
        return Erased(false);
      }
      var c := ControlsOf(data, id);
      if c.requests == [] || c.requests[|c.requests| - 1].id != request {
        return Threw(RequestNotCurrent);
      }
      var blockers := DeletionBlockers(data, data.records[id], at);
      if blockers != {} {
        return Threw(DeletionBlocked(blockers));
      }
      EraseApproved(id, c.requests[|c.requests| - 1], at);
      return Erased(true);
    }

    method PurgeExpired(order: seq<Id>, now: int) returns (out: Outcome)
      modifies this
      ensures (data, out) == Operate(old(data), Op.PurgeExpired(order, now))
    {
      if !Timestamp(now) {
        return Threw(InvalidTimestamp);
      }
      var count := 0;
      for k := 0 to |order|
        invariant (data, count) == PurgeAll(old(data), order[..k], now)
      {
        assert order[..k + 1][..k] == order[..k];
        var id := order[k];
        if id in data.records {
          var requests := ControlsOf(data, id).requests;
          if requests != [] && requests[|requests| - 1].automatic &&
              DeletionBlockers(data, data.records[id], now) == {} {
            EraseApproved(id, requests[|requests| - 1], now);
            count := count + 1;
          }
        }
      }
      assert order[..|order|] == order;
      return Purged(count);
    }

    method RecoverBlocked(order: seq<Id>, now: int) returns (out: Outcome)
      modifies this
      ensures out == Operate(old(data), Op.RecoverBlocked(order, now)).1
      ensures !out.Threw? ==> data == Operate(old(data), Op.RecoverBlocked(order, now)).0
    {
      for k := 0 to |order|
        invariant RecoverAll(old(data), order[..k], now) == Ok(data)
      {
        assert order[..k + 1][..k] == order[..k];
        var failure := RecoverNext(order[k], now);
        if failure.Some? {
          FailureStays(old(data), order, k + 1, now, failure.value);
          return Threw(failure.value);
        }
      }
      assert order[..|order|] == order;
      return Done;
    }

    method RecoverNext(id: Id, now: int) returns (failure: Option<Failure>)
      modifies this
      ensures match Recovered(old(data), id, now)
              case Ok(t) => failure.None? && data == t
              case Err(why) => failure == Some(why)
    {
      if id in data.records && data.records[id].state == Blocked && JobsOf(data, id) == map[] {
        failure := QueueRevocation(data.records[id], now);
      } else {
        failure := None;
      }
    }

    method PrepareRevocation(id: JobId, t: Signed) returns (out: Outcome)
      modifies this
      ensures out == PrepareJob(old(data), id, t).1
      ensures !out.Threw? ==> data == PrepareJob(old(data), id, t).0
    {
      if id !in data.jobs {
        return Threw(UnknownJob);
      }
      var job := data.jobs[id];
      if job.state == Confirmed {
        return Threw(AlreadyConfirmed);
      }
      if job.transaction.Some? && job.transaction.value.hash != t.hash {
        return Threw(DifferentTransaction);
      }
      job := job.(transaction := Some(t));
      job := job.(state := Prepared);
      data := data.(jobs := data.jobs[id := job]);
      return Ready(job);
    }

    method FinishRevocation(id: JobId, at: int) returns (out: Outcome)
      modifies this
      ensures out == FinishJob(old(data), id, at).1
      ensures !out.Threw? ==> data == FinishJob(old(data), id, at).0
    {
      if id !in data.jobs {
        return Threw(UnknownJob);
      }
      var job := data.jobs[id];
      if job.transaction.None? {
        return Threw(NoTransaction);
      }
      job := job.(state := Confirmed, confirmedAt := Some(at), lastError := None);
      // The hash stays for reconciliation; the signed bytes are no longer needed.
      job := job.(transaction := Some(job.transaction.value.(raw := None)));
      data := data.(jobs := data.jobs[id := job]);
      return Done;
    }

    method FailRevocation(id: JobId, error: string, minedRevert: bool) returns (out: Outcome)
      modifies this
      ensures out == FailJob(old(data), id, error, minedRevert).1
      ensures !out.Threw? ==> data == FailJob(old(data), id, error, minedRevert).0
    {
      if id !in data.jobs {
        return Threw(UnknownJob);
      }
      var job := data.jobs[id];
      if job.state == Confirmed {
        return Threw(AlreadyConfirmed);
      }
      job := job.(lastError := Some(if |error| <= 200 then error else error[..200]));
      if minedRevert {
        job := job.(state := Queued, transaction := None);
      }
      data := data.(jobs := data.jobs[id := job]);
      return Done;
    }

    method RecordObservation(id: JobId, known: Job, observation: nat, fits: bool) returns (out: Outcome)
      modifies this
      ensures out == ObserveJob(old(data), id, known, observation, fits).1
      ensures !out.Threw? ==> data == ObserveJob(old(data), id, known, observation, fits).0
    {
      if id !in data.jobs || data.jobs[id] != known {
        return Threw(JobChanged);
      }
      var job := data.jobs[id];
      if job.transaction.None? || !fits {
        return Threw(InvalidObservation);
      }
      if Last(job.observations) != Some(observation) {
        data := data.(jobs := data.jobs[id := job.(observations := job.observations + [observation])]);
      }
      return Done;
    }
  }

  /** Once recovery has failed it stays failed for longer orders. */
  lemma {:induction false} FailureStays(v: VaultData, order: seq<Id>, k: nat, now: int, why: Failure)
    requires k <= |order| && RecoverAll(v, order[..k], now) == Err(why)
    ensures RecoverAll(v, order, now) == Err(why)
    decreases |order|
  {
    if k == |order| {
      assert order[..k] == order;
    } else {
      assert order[..|order| - 1][..k] == order[..k];
      FailureStays(v, order[..|order| - 1], k, now, why);
    }
  }

  // ---------- What every mutation keeps ----------

  ghost predicate RecordsOk(records: map<Id, Record>, erasures: seq<Erasure>) {
    && (forall id :: id in records ==> records[id].id == id)
    && (forall i :: 0 <= i < |erasures| ==> erasures[i].record !in records)
    && (forall i, j :: 0 <= i < j < |erasures| ==> erasures[i].record != erasures[j].record)
  }

  /** At most one unconfirmed job per record; a job has signed bytes unless it waits to be signed. */
  ghost predicate OutboxOk(jobs: map<JobId, Job>) {
    && (forall j :: j in jobs ==> jobs[j].id == j && (jobs[j].transaction.None? <==> jobs[j].state == Queued))
    && (forall i, j :: i in jobs && j in jobs && i.record == j.record ==>
          jobs[i].state == Confirmed || jobs[j].state == Confirmed || i == j)
  }

  predicate RequestOk(q: DeletionRequest) {
    q.approval.Some? ==> q.approval.value.operator != q.operator && q.requestedAt <= q.approval.value.at
  }

  ghost predicate RetentionOk(retention: map<Id, Controls>) {
    forall id, q :: id in retention && q in retention[id].requests ==> RequestOk(q)
  }

  ghost predicate Inv(v: VaultData) {
    RecordsOk(v.records, v.erasures) && OutboxOk(v.jobs) && RetentionOk(v.retention)
  }

  lemma WithRecordKeepsInv(v: VaultData, r: Record)
    requires Inv(v) && (r.id in v.records || forall e :: e in v.erasures ==> e.record != r.id)
    ensures Inv(WithRecord(v, r))
  {
  }

  lemma QueueKeepsInv(v: VaultData, r: Record, at: int)
    requires Inv(v)
    ensures Queue(v, r, at).Ok? ==> Inv(Queue(v, r, at).value)
  {
    if Queue(v, r, at).Ok? && !AnyOpen(JobsOf(v, r.id)) {
      forall j | j in v.jobs && j.record == r.id ensures v.jobs[j].state == Confirmed {
        assert j in JobsOf(v, r.id);
      }
    }
  }

  lemma DecidedKeepsInv(v: VaultData, r: Record, condemned: bool, at: int)
    requires Inv(v) && r.id in v.records
    ensures Inv(Decided(v, r, condemned, at).0)
  {
    WithRecordKeepsInv(v, r);
    QueueKeepsInv(WithRecord(v, r), r, at);
  }

  lemma WithControlsKeepsInv(v: VaultData, id: Id, c: Controls)
    requires Inv(v) && forall q :: q in c.requests ==> RequestOk(q)
    ensures Inv(WithControls(v, id, c))
  {
  }

  lemma JobKeepsInv(v: VaultData, id: JobId, j: Job)
    requires Inv(v) && id in v.jobs && j.id == id && (j.transaction.None? <==> j.state == Queued)
    requires j.state != Confirmed ==> v.jobs[id].state != Confirmed
    ensures Inv(v.(jobs := v.jobs[id := j]))
  {
  }

  lemma EraseKeepsInv(v: VaultData, id: Id, q: DeletionRequest, at: int)
    requires Inv(v) && id in v.records
    ensures Inv(EraseRecord(v, id, q, at))
  {
  }

  lemma {:induction false} PurgeKeepsInv(v: VaultData, order: seq<Id>, now: int)
    requires Inv(v)
    ensures Inv(PurgeAll(v, order, now).0)
  {
    if order != [] {
      PurgeKeepsInv(v, order[..|order| - 1], now);
      var t := PurgeAll(v, order[..|order| - 1], now).0;
      var id := order[|order| - 1];
      if Due(t, id, now) {
        EraseKeepsInv(t, id, Last(ControlsOf(t, id).requests).value, now);
      }
    }
  }

  lemma {:induction false} RecoverKeepsInv(v: VaultData, order: seq<Id>, now: int)
    requires Inv(v)
    ensures RecoverAll(v, order, now).Ok? && Inv(RecoverAll(v, order, now).value)
  {
    if order != [] {
      RecoverKeepsInv(v, order[..|order| - 1], now);
      var t := RecoverAll(v, order[..|order| - 1], now).value;
      var id := order[|order| - 1];
      if id in t.records && JobsOf(t, id) == map[] {
        QueueKeepsInv(t, t.records[id], now);
        assert JobId(id, now) !in JobsOf(t, id);
      }
    }
  }

  lemma RecordOpsKeepInv(v: VaultData, op: Op)
    requires Inv(v) && (op.Put? || op.RecordMaterialization? || op.RecordSourceConfirmation? || op.RecordRescreen? ||
        op.DecideReview?)
    ensures Inv(Operate(v, op).0)
  {
    match op {
      case Put(r) =>
        if r.id !in v.records && forall e :: e in v.erasures ==> e.record != r.id {
          WithRecordKeepsInv(v, r);
        }
      case RecordMaterialization(id, hash) =>
        if id in v.records {
          var t := Materialize(v, id, hash).0;
          if t != v {
            WithRecordKeepsInv(v, t.records[id]);
          }
        }
      case RecordSourceConfirmation(id, hash, o) =>
        if id in v.records {
          var t := ConfirmSource(v, id, hash, o).0;
          if t != v {
            WithRecordKeepsInv(v, t.records[id]);
          }
        }
      case RecordRescreen(id, event, expected) => RescreenKeepsInv(v, id, event, expected);
      case DecideReview(id, review, basis) => ReviewKeepsInv(v, id, review, basis);
    }
  }

  lemma RescreenKeepsInv(v: VaultData, id: Id, event: Rescreen, expected: Record)
    requires Inv(v)
    ensures Inv(RescreenRecord(v, id, event, expected).0)
  {
    if id in v.records {
      var r := v.records[id];
      var state := RescreenedState(r, event.decision);
      DecidedKeepsInv(v, r.(lastScreenedAt := Some(event.at), rescreens := r.rescreens + [event], state := state),
          event.decision == Block, event.at);
    }
  }

  lemma ReviewKeepsInv(v: VaultData, id: Id, review: Review, basis: Basis)
    requires Inv(v)
    ensures Inv(ReviewRecord(v, id, review, basis).0)
  {
    if id in v.records {
      var r := v.records[id];
      var state := if review.outcome == Cleared then ClearedState(r) else Blocked;
      DecidedKeepsInv(v, r.(reviews := r.reviews + [review], state := state), review.outcome == Condemned, review.at);
    }
  }

  predicate JobOp(op: Op) {
    op.PrepareRevocation? || op.FinishRevocation? || op.FailRevocation? || op.RecordObservation?
  }

  /** Retention operations write one record's controls and nothing else. */
  lemma ControlOpsWriteControls(v: VaultData, op: Op)
    requires ControlOp(op)
    ensures var t := Operate(v, op).0;
            t == v || (op.id in v.records && op.id in t.retention && t == WithControls(v, op.id, t.retention[op.id]))
  {
  }

  /** The requests of a record after an operation: as before, one more, or the last one approved. */
  lemma ControlOpsRequests(v: VaultData, op: Op)
    requires ControlOp(op)
    ensures var before, after := ControlsOf(v, op.id).requests, ControlsOf(Operate(v, op).0, op.id).requests;
            || after == before
            || (op.RequestDeletion? && after == before + [DeletionRequest(op.request,
                FingerprintOf(v, v.records[op.id]), op.at, op.input.operator,
                  op.input.policyRef, op.input.serviceRef, op.input.disposition, op.input.automatic, None)])
            || (op.ApproveDeletion? && before != [] && Approves(v, op, before[|before| - 1])
                && after == before[|before| - 1 := before[|before| - 1].(approval :=
                    Some(Approval(op.operator, op.at)))])
  {
  }

  predicate Approves(v: VaultData, op: Op, q: DeletionRequest)
    requires op.ApproveDeletion?
  {
    op.id in v.records && q.operator != op.operator && q.approval.None? && q.requestedAt <= op.at &&
        q.fingerprint == FingerprintOf(v, v.records[op.id])
  }

  lemma ControlOpsKeepInv(v: VaultData, op: Op)
    requires Inv(v) && ControlOp(op)
    ensures Inv(Operate(v, op).0)
  {
    var t := Operate(v, op).0;
    ControlOpsWriteControls(v, op);
    ControlOpsRequests(v, op);
    if t != v {
      assert forall q :: q in ControlsOf(v, op.id).requests ==> RequestOk(q);
      WithControlsKeepsInv(v, op.id, t.retention[op.id]);
    }
  }

  lemma JobOpsKeepInv(v: VaultData, op: Op)
    requires Inv(v) && JobOp(op)
    ensures Inv(Operate(v, op).0)
  {
    var t := Operate(v, op).0;
    if t != v {
      JobKeepsInv(v, op.job, t.jobs[op.job]);
    }
  }

  lemma StepKeepsInv(v: VaultData, op: Op)
    requires Inv(v)
    ensures Inv(Apply(v, op).0)
  {
    if ControlOp(op) {
      ControlOpsKeepInv(v, op);
    } else if JobOp(op) {
      JobOpsKeepInv(v, op);
    } else if op.Erase? {
      if op.id in v.records && Last(ControlsOf(v, op.id).requests).Some? {
        EraseKeepsInv(v, op.id, Last(ControlsOf(v, op.id).requests).value, op.at);
      }
    } else if op.PurgeExpired? {
      PurgeKeepsInv(v, op.order, op.at);
    } else if op.RecoverBlocked? {
      RecoverKeepsInv(v, op.order, op.at);
    } else {
      RecordOpsKeepInv(v, op);
    }
  }
}
