/**
 * The delivery step of one request (pipeline/issuance-delivery.ts, lines 35-150), run by any number of
 * interleaved workers over the journal. A worker is at one of its awaits; an action resolves an await,
 * kills a worker, loses a reply or moves the server clock.
 */
module IssuanceDelivery {
  import opened Prelude
  import opened IssuanceJournal

  datatype Receipt = Waiting | Reverted(confirmation: nat) | Success(confirmation: nat)

  /** Where execution goes on once a save is acknowledged. */
  datatype Next = AfterEvidenceSave | AfterRetrySave | AfterSignedSave | AfterIntentSave | AfterSendSave
      | AfterConfirmedSave | Stop

  /** The awaits of the function, in program order. */
  datatype Stage =
    | Acquiring
    | PuttingEvidence
    | CheckingTarget
    | AskingProcessed
    | CheckingPrepare
    | Preparing
    | ReservingNew(signed: Signed)
    | ReservingOld
    | AskingReceipt
    | CheckingIntent
    | CheckingSend
    | Sending
    | AskingAgain
    | Reconciling(receipt: Receipt)
    | RecordingSource(confirmation: nat)
    | AskingMaterialized
    | RecordingMaterialized(final: bool)
    | Saving(entry: Entry, next: Next)
    | Recovering
    | Releasing

  datatype Worker = Worker(
    id: Id, owner: Owner, retryFailed: bool, budgeted: bool, reservedThisPass: bool,
    revision: nat, seen: Entry, stage: Stage)

  /** What a dependency answers: a refusal that is a journal or budget error is fatal to the pass. */
  datatype Answer = Done | Yes | No | Bytes(signed: Signed, matchesTarget: bool) | Observed(receipt: Receipt) | Thrown
      | ThrownFatal

  // ---------- One worker, between two awaits ----------

  function At(w: Worker, stage: Stage): Worker {
    w.(stage := stage)
  }

  function Fail(e: Entry, note: Note): Entry {
    e.(phase := Failed, lastError := Some(note))
  }

  function Start(w: Worker, clock: nat): Stage {
    var e := w.seen;
    if e.phase == Failed && (!w.retryFailed || e.lastError != Some(SourceReverted)) then Releasing
    else if e.phase == Prepared && e.transaction.None? && e.approved && clock >= e.prepareUntil
    then Saving(Fail(e, PreparationExpired), Stop)
    else if !e.evidenceStored then PuttingEvidence
    else Approve(w)
  }

  function Approve(w: Worker): Stage {
    if !w.seen.approved then Saving(Fail(w.seen, NotApproved), Stop) else CheckingTarget
  }

  /** A retry keeps the reverted bytes on record and gives up the transaction, confirmation and error. */
  function RetryEntry(e: Entry): Entry {
    e.(reverted := if e.transaction.Some? then e.reverted + [e.transaction.value] else e.reverted,
       transaction := None, confirmation := None, phase := Prepared, lastError := None)
  }

  function Retry(w: Worker, clock: nat): Stage {
    if w.seen.phase == Failed then
      if !w.retryFailed || w.seen.lastError != Some(SourceReverted) then Releasing
      else Saving(RetryEntry(w.seen), AfterRetrySave)
    else Sign(w, clock)
  }

  function Sign(w: Worker, clock: nat): Stage {
    if w.seen.transaction.Some? then Reserve(w)
    else if clock >= w.seen.prepareUntil || w.seen.expiry * 1000 <= clock
        then Saving(Fail(w.seen, PreparationExpired), Stop)
    else AskingProcessed
  }

  function Reserve(w: Worker): Stage {
    if w.budgeted && !w.reservedThisPass then ReservingOld else AskingReceipt
  }

  function Settle(w: Worker, r: Receipt): Stage {
    match r
    case Waiting => Releasing
    case Reverted(c) => Saving(Fail(w.seen, SourceReverted).(confirmation := Some(c)), Stop)
    case Success(c) => RecordingSource(c)
  }

  function Resolve(w: Worker, r: Receipt): Stage {
    if r.Waiting? then Releasing else if w.budgeted then Reconciling(r) else Settle(w, r)
  }

  /** Where an answered await on a dependency other than the journal leads. */
  function Continue(w: Worker, a: Answer, clock: nat): Stage {
    if a.ThrownFatal? && w.stage != Sending then Releasing
    else if a.Thrown? && w.stage != Sending then Recovering
    else
      match w.stage
      case PuttingEvidence => Saving(w.seen.(evidenceStored := true), AfterEvidenceSave)
      case CheckingTarget => Retry(w, clock)
      case AskingProcessed => if a == Yes then Saving(Fail(w.seen, AlreadyUsed), Stop) else CheckingPrepare
      case CheckingPrepare => Preparing
      case Preparing =>
        if !a.Bytes? || !a.matchesTarget then Releasing
        else if w.budgeted then ReservingNew(a.signed)
        else Saving(w.seen.(transaction := Some(a.signed)), AfterSignedSave)
      case ReservingNew(signed) => Saving(w.seen.(transaction := Some(signed)), AfterSignedSave)
      case ReservingOld => AskingReceipt
      case AskingReceipt =>
        if !a.Observed? then Recovering else if a.receipt.Waiting? then CheckingIntent else Resolve(w, a.receipt)
      case CheckingIntent => Saving(w.seen.(phase := Submitted, confirmation := None), AfterIntentSave)
      case CheckingSend => Sending
      case Sending => Saving(w.seen.(lastError := if a.Thrown? ||
          a.ThrownFatal? then Some(BroadcastUnconfirmed) else None), AfterSendSave)
      case AskingAgain => if !a.Observed? then Recovering else Resolve(w, a.receipt)
      case Reconciling(r) => Settle(w, r)
      case RecordingSource(c) =>
        if w.seen.phase == Materialized then RecordingMaterialized(false)
        else Saving(w.seen.(phase := SourceConfirmed, confirmation := Some(c), lastError := None), AfterConfirmedSave)
      case AskingMaterialized => if a == Yes then RecordingMaterialized(true) else Releasing
      case RecordingMaterialized(final) =>
        if final then Saving(w.seen.(phase := Materialized, lastError := None), Stop) else Releasing
      case _ => w.stage
  }

  function Respond(w: Worker, a: Answer, clock: nat): Worker {
    w.(stage := Continue(w, a, clock), reservedThisPass := w.reservedThisPass ||
        (w.stage.ReservingNew? && !a.Thrown? && !a.ThrownFatal?))
  }

  /** Where an acknowledged save leads, the stored snapshot being the worker's view. */
  function Resume(w: Worker, next: Next, clock: nat): Stage {
    match next
    case AfterEvidenceSave => Approve(w)
    case AfterRetrySave => Sign(w, clock)
    case AfterSignedSave => Reserve(w)
    case AfterIntentSave => CheckingSend
    case AfterSendSave => AskingAgain
    case AfterConfirmedSave => AskingMaterialized
    case Stop => Releasing
  }

  /** The handler re-reads the entry and leaves a note only if nothing changed meanwhile. */
  function Recover(w: Worker, r: Reply): Worker {
    if r.Snapshot? && r.revision == w.revision && r.entry.phase != Failed
    then w.(seen := r.entry, stage := Saving(r.entry.(lastError := Some(DependencyUnavailable)), Stop))
    else At(w, Releasing)
  }

  function See(w: Worker, r: Reply): Worker
    requires r.Snapshot?
  {
    w.(revision := r.revision, seen := r.entry)
  }

  /** The worker after its save was stored, whether or not the acknowledgement reached it. */
  function Acknowledged(w: Worker, r: Reply, delivered: bool, clock: nat): Worker
    requires w.stage.Saving? && r.Snapshot?
  {
    if delivered then At(See(w, r), Resume(See(w, r), w.stage.next, clock)) else At(w, Releasing)
  }

  // ---------- All workers over one journal ----------

  /** What ever happened, for the statements below: bytes stored, bytes sent, receipts reported. */
  datatype Evidence = Evidence(stored: set<(Id, Signed)>, sent: set<(Id, Signed)>, reverts: set<Signed>,
      successes: set<Signed>)

  datatype World = World(journal: JournalState, workers: map<Owner, Worker>, spawned: set<Owner>, ev: Evidence)

  datatype Action =
    | Tick(time: nat)
    | NewRequest(time: nat, entry: Entry, canExpire: bool)
    | Spawn(owner: Owner, id: Id, retryFailed: bool, budgeted: bool)
    | Crash(owner: Owner)
    /** Acquire reached the server; the reply may be lost. */
    | Acquire(owner: Owner, time: nat, signer: Signer, delivered: bool, clock: nat)
    | Answered(owner: Owner, answer: Answer, clock: nat)
    /** The save reached the server; the acknowledgement may be lost. */
    | SaveServed(owner: Owner, time: nat, canExpire: bool, delivered: bool, clock: nat)
    | SaveLost(owner: Owner)
    | Reread(owner: Owner, time: nat, delivered: bool)
    | Release(owner: Owner, time: nat, reached: bool)

  /** A request as it is created: prepared and unsigned. */
  predicate Fresh(e: Entry) {
    e.phase == Prepared && e.transaction.None? && e.lastError.None? && e.reverted == []
  }

  /** What a worker sees before its acquisition is answered. */
  function BlankEntry(id: Id): Entry {
    Entry(id, 0, false, Prepared, 0, 0, false, None, [], None, None)
  }

  /** Awaits on a dependency other than the journal. */
  predicate Asking(stage: Stage) {
    !stage.Acquiring? && !stage.Saving? && !stage.Recovering? && !stage.Releasing?
  }

  function Put(g: World, w: Worker): World {
    g.(workers := g.workers[w.owner := w])
  }

  function Gone(g: World, owner: Owner): World {
    g.(workers := g.workers - {owner})
  }

  /** The broadcast leaves when the last check before it passes, whatever becomes of the call. */
  function Note(ev: Evidence, w: Worker, a: Answer): Evidence {
    if Continue(w, a, 0) == Sending && w.seen.transaction.Some?
        then ev.(sent := ev.sent + {(w.id, w.seen.transaction.value)})
    else if (w.stage == AskingReceipt || w.stage == AskingAgain) && a.Observed? && w.seen.transaction.Some? then
      match a.receipt
      case Waiting => ev
      case Reverted(_) => ev.(reverts := ev.reverts + {w.seen.transaction.value})
      case Success(_) => ev.(successes := ev.successes + {w.seen.transaction.value})
    else ev
  }

  function Store(ev: Evidence, e: Entry): Evidence {
    if e.transaction.Some? then ev.(stored := ev.stored + {(e.id, e.transaction.value)}) else ev
  }

  function Step(g: World, a: Action): World {
    match a
    case Tick(time) => g.(journal := Advance(g.journal, time))
    case NewRequest(time, e, canExpire) =>
      if Fresh(e) then g.(journal := Execute(g.journal, time, Create(e, canExpire)).0) else g
    case Spawn(owner, id, retryFailed, budgeted) =>
      if owner in g.spawned then g
      else Put(g, Worker(id, owner, retryFailed, budgeted, false, 0, BlankEntry(id), Acquiring)).(spawned :=
          g.spawned + {owner})
    case Crash(owner) => Gone(g, owner)
    case Acquire(owner, time, signer, delivered, clock) =>
      if owner !in g.workers || g.workers[owner].stage != Acquiring then g
      else
        var w := g.workers[owner];
        var (j, reply) := Execute(g.journal, time, IssuanceJournal.Op.Acquire(w.id, owner, signer));
        var h := g.(journal := j);
        if delivered && reply.Snapshot? then Put(h, At(See(w, reply), Start(See(w, reply), clock))) else Gone(h, owner)
    case Answered(owner, answer, clock) =>
      if owner !in g.workers then g
      else
        var w := g.workers[owner];
        if !Asking(w.stage) then g
        else Put(g, Respond(w, answer, clock)).(ev := Note(g.ev, w, answer))
    case SaveServed(owner, time, canExpire, delivered, clock) =>
      if owner !in g.workers || !g.workers[owner].stage.Saving? then g
      else
        var w := g.workers[owner];
        var e := w.stage.entry;
        var (j, reply) := Execute(g.journal, time, Save(e, owner, w.revision, canExpire));
        var h := g.(journal := j, ev := if reply.Snapshot? then Store(g.ev, e) else g.ev);
        Put(h, if reply.Snapshot? then Acknowledged(w, reply, delivered, clock) else At(w, Releasing))
    case SaveLost(owner) =>
      if owner !in g.workers || !g.workers[owner].stage.Saving? then g else Put(g, At(g.workers[owner], Releasing))
    case Reread(owner, time, delivered) =>
      if owner !in g.workers || g.workers[owner].stage != Recovering then g
      else
        var w := g.workers[owner];
        var (j, reply) := Execute(g.journal, time, Get(w.id));
        Put(g.(journal := j), if delivered then Recover(w, reply) else At(w, Releasing))
    case Release(owner, time, reached) =>
      if owner !in g.workers || g.workers[owner].stage != Releasing then g
      else
        var j := if reached then Execute(g.journal, time, IssuanceJournal.Op.Release(g.workers[owner].id, owner)).0
            else g.journal;
        Gone(g.(journal := j), owner)
  }

  function Run(g: World, actions: seq<Action>): World {
    if actions == [] then g else Step(Run(g, actions[..|actions| - 1]), actions[|actions| - 1])
  }

  function Initial(): World {
    World(JournalState(0, map[], map[], {}, map[]), map[], {}, Evidence({}, {}, {}, {}))
  }

  // ---------- Invariant ----------

  /** What the stored fields of an entry imply about its signed bytes. */
  predicate EntryShape(e: Entry, ev: Evidence) {
    && (!e.approved ==> e.transaction.None?)
    && (e.phase == Submitted ==> e.transaction.Some?)
    && (e.phase == Failed && e.transaction.Some? ==>
          e.lastError == Some(SourceReverted) && e.transaction.value in ev.reverts)
    && (e.phase == SourceConfirmed || e.phase == Materialized ==>
          e.transaction.Some? && e.transaction.value in ev.successes)
  }

  predicate Kept(e: Entry, ev: Evidence) {
    e.transaction.Some? ==> (e.id, e.transaction.value) in ev.stored
  }

  /** Bytes stay, are added to an unsigned entry, or move to the reverted list after a recorded revert. */
  predicate BytesRule(a: Entry, b: Entry) {
    || (b.transaction == a.transaction && b.reverted == a.reverted)
    || (a.transaction.None? && b.reverted == a.reverted)
    || (a.transaction.Some? && a.phase == Failed && a.lastError == Some(SourceReverted)
        && b.transaction.None? && b.reverted == a.reverted + [a.transaction.value])
  }

  predicate Change(a: Entry, b: Entry, ev: Evidence) {
    b.id == a.id && b.approved == a.approved && EntryShape(b, ev) && BytesRule(a, b)
  }

  predicate NextOk(e: Entry, next: Next) {
    match next
    case AfterRetrySave => e.approved && e.transaction.None? && e.phase == Prepared
    case AfterSignedSave => e.transaction.Some? && e.phase == Prepared
    case AfterIntentSave => e.transaction.Some? && e.phase == Submitted
    case AfterSendSave => e.transaction.Some? && e.phase == Submitted
    case AfterConfirmedSave => e.phase == SourceConfirmed
    case _ => true
  }

  predicate StageOk(w: Worker, ev: Evidence) {
    var e := w.seen;
    match w.stage
    case Acquiring => false
    case CheckingTarget => e.approved
    case AskingProcessed => e.approved && e.transaction.None? && e.phase == Prepared
    case CheckingPrepare => e.approved && e.transaction.None? && e.phase == Prepared
    case Preparing => e.approved && e.transaction.None? && e.phase == Prepared
    case ReservingNew(_) => e.approved && e.transaction.None? && e.phase == Prepared
    case ReservingOld => e.transaction.Some? && e.phase != Failed
    case AskingReceipt => e.transaction.Some? && e.phase != Failed
    case CheckingIntent => e.transaction.Some? && e.phase != Failed
    case CheckingSend => e.transaction.Some? && e.phase == Submitted
    case Sending => e.transaction.Some? && e.phase == Submitted
    case AskingAgain => e.transaction.Some? && e.phase == Submitted
    case Reconciling(r) => e.transaction.Some? && e.phase != Failed && Known(r, e, ev)
    case RecordingSource(_) => e.transaction.Some? && e.phase != Failed && e.transaction.value in ev.successes
    case AskingMaterialized => e.phase == SourceConfirmed
    case RecordingMaterialized(_) => e.phase == SourceConfirmed || e.phase == Materialized
    case Saving(b, next) => Change(e, b, ev) && NextOk(b, next)
    case _ => true
  }

  predicate Known(r: Receipt, e: Entry, ev: Evidence)
    requires e.transaction.Some?
  {
    (r.Reverted? ==> e.transaction.value in ev.reverts) && (r.Success? ==> e.transaction.value in ev.successes)
  }

  predicate EvidenceGrows(ev: Evidence, ev': Evidence) {
    ev.stored <= ev'.stored && ev.sent <= ev'.sent && ev.reverts <= ev'.reverts && ev.successes <= ev'.successes
  }

  /** While a worker owns a row, nobody has written it since that worker last saw it. */
  ghost predicate View(j: JournalState, w: Worker) {
    forall id :: id in j.rows && j.rows[id].owner == Some(w.owner) ==>
      && w.stage != Acquiring
      && (w.stage != Releasing ==> id == w.id && j.rows[id].revision == w.revision && j.rows[id].payload == w.seen)
  }

  predicate SeenOk(w: Worker, ev: Evidence) {
    w.seen.id == w.id && EntryShape(w.seen, ev) && Kept(w.seen, ev)
  }

  /** A worker past its acquisition. */
  predicate Ready(w: Worker, ev: Evidence) {
    SeenOk(w, ev) && StageOk(w, ev)
  }

  predicate LocalOk(w: Worker, ev: Evidence) {
    w.stage == Acquiring || Ready(w, ev)
  }

  ghost predicate RowsOk(j: JournalState, spawned: set<Owner>, ev: Evidence) {
    forall id :: id in j.rows ==>
      EntryShape(j.rows[id].payload, ev) && Kept(j.rows[id].payload, ev)
      && (j.rows[id].owner.Some? ==> j.rows[id].owner.value in spawned)
  }

  ghost predicate WorldInv(g: World) {
    && Inv(g.journal) && RowsOk(g.journal, g.spawned, g.ev) && g.ev.sent <= g.ev.stored
    && (forall o :: o in g.workers ==>
          g.workers[o].owner == o && o in g.spawned && LocalOk(g.workers[o], g.ev) && View(g.journal, g.workers[o]))
  }

  // ---------- Local steps ----------

  lemma SignOk(w: Worker, clock: nat, ev: Evidence)
    requires SeenOk(w, ev) && w.seen.approved && w.seen.phase != Failed
    ensures Ready(At(w, Sign(w, clock)), ev)
  {
  }

  lemma RetryOk(w: Worker, clock: nat, ev: Evidence)
    requires SeenOk(w, ev) && w.seen.approved
    ensures Ready(At(w, Retry(w, clock)), ev)
  {
    if w.seen.phase != Failed {
      SignOk(w, clock, ev);
    }
  }

  lemma ApproveOk(w: Worker, ev: Evidence)
    requires SeenOk(w, ev)
    ensures Ready(At(w, Approve(w)), ev)
  {
  }

  lemma StartOk(w: Worker, clock: nat, ev: Evidence)
    requires SeenOk(w, ev)
    ensures Ready(At(w, Start(w, clock)), ev)
  {
    ApproveOk(w, ev);
  }

  lemma ResumeOk(w: Worker, next: Next, clock: nat, ev: Evidence)
    requires SeenOk(w, ev) && NextOk(w.seen, next)
    ensures Ready(At(w, Resume(w, next, clock)), ev)
  {
    match next {
      case AfterEvidenceSave => ApproveOk(w, ev);
      case AfterRetrySave => SignOk(w, clock, ev);
      case _ =>
    }
  }

  lemma SettleOk(w: Worker, r: Receipt, ev: Evidence)
    requires SeenOk(w, ev)
    requires w.seen.transaction.Some? && w.seen.phase != Failed && Known(r, w.seen, ev)
    ensures Ready(At(w, Settle(w, r)), ev) && Ready(At(w, Resolve(w, r)), ev)
  {
  }

  predicate BeforeSigning(stage: Stage) {
    stage.PuttingEvidence? || stage.CheckingTarget? || stage.AskingProcessed? || stage.CheckingPrepare? ||
        stage.Preparing? || stage.ReservingNew?
  }

  predicate AroundSending(stage: Stage) {
    stage.ReservingOld? || stage.CheckingIntent? || stage.CheckingSend? || stage.Sending?
  }

  predicate AfterOutcome(stage: Stage) {
    stage.Reconciling? || stage.RecordingSource? || stage.AskingMaterialized? || stage.RecordingMaterialized?
  }

  predicate Threw(a: Answer) {
    a.Thrown? || a.ThrownFatal?
  }

  lemma BeforeSigningOk(w: Worker, a: Answer, clock: nat, ev: Evidence)
    requires Ready(w, ev) && BeforeSigning(w.stage) && !Threw(a)
    ensures Ready(At(w, Continue(w, a, clock)), ev)
  {
    if w.stage.CheckingTarget? {
      RetryOk(w, clock, ev);
    }
  }

  lemma AroundSendingOk(w: Worker, a: Answer, clock: nat, ev: Evidence)
    requires Ready(w, ev) && AroundSending(w.stage)
    ensures Ready(At(w, Continue(w, a, clock)), ev)
  {
  }

  lemma AfterOutcomeOk(w: Worker, a: Answer, clock: nat, ev: Evidence)
    requires Ready(w, ev) && AfterOutcome(w.stage) && !Threw(a)
    ensures Ready(At(w, Continue(w, a, clock)), ev)
  {
    if w.stage.Reconciling? {
      SettleOk(w, w.stage.receipt, ev);
    }
  }

  lemma ReceiptOk(w: Worker, a: Answer, clock: nat, ev: Evidence)
    requires Ready(w, ev) && (w.stage.AskingReceipt? || w.stage.AskingAgain?) && a.Observed?
    requires a.receipt.Waiting? || (w.seen.transaction.Some? && Known(a.receipt, w.seen, ev))
    ensures Ready(At(w, Continue(w, a, clock)), ev)
  {
    SettleOk(w, a.receipt, ev);
  }

  /** A receipt is noted as the answer it is. */
  lemma NoteKnows(w: Worker, a: Answer, ev: Evidence)
    requires (w.stage.AskingReceipt? || w.stage.AskingAgain?) && a.Observed? && w.seen.transaction.Some?
    ensures Known(a.receipt, w.seen, Note(ev, w, a))
  {
  }

  lemma ContinueOk(w: Worker, a: Answer, clock: nat, ev: Evidence)
    requires Ready(w, ev) && Asking(w.stage)
    requires (w.stage.AskingReceipt? || w.stage.AskingAgain?) && a.Observed? ==>
               w.seen.transaction.Some? && Known(a.receipt, w.seen, ev)
    ensures Ready(At(w, Continue(w, a, clock)), ev)
  {
    if AroundSending(w.stage) {
      AroundSendingOk(w, a, clock, ev);
    } else if Threw(a) {
    } else if BeforeSigning(w.stage) {
      BeforeSigningOk(w, a, clock, ev);
    } else if AfterOutcome(w.stage) {
      AfterOutcomeOk(w, a, clock, ev);
    } else if a.Observed? {
      ReceiptOk(w, a, clock, ev);
    }
  }

  lemma RespondOk(w: Worker, a: Answer, clock: nat, ev: Evidence)
    requires Ready(w, ev) && Asking(w.stage) && ev.sent <= ev.stored
    ensures Ready(Respond(w, a, clock), Note(ev, w, a))
  {
    var ev' := Note(ev, w, a);
    NoteGrows(ev, w, a);
    LocalGrows(w, ev, ev');
    if (w.stage.AskingReceipt? || w.stage.AskingAgain?) && a.Observed? {
      NoteKnows(w, a, ev);
    }
    ContinueOk(w, a, clock, ev');
    SameReady(At(w, Continue(w, a, clock)), Respond(w, a, clock), ev');
  }

  lemma SameReady(w: Worker, v: Worker, ev: Evidence)
    requires Ready(w, ev) && v.seen == w.seen && v.id == w.id && v.stage == w.stage
    ensures Ready(v, ev)
  {
  }

  lemma LocalGrows(w: Worker, ev: Evidence, ev': Evidence)
    requires LocalOk(w, ev) && EvidenceGrows(ev, ev')
    ensures LocalOk(w, ev')
  {
  }

  lemma NoteGrows(ev: Evidence, w: Worker, a: Answer)
    requires Ready(w, ev) && ev.sent <= ev.stored
    ensures EvidenceGrows(ev, Note(ev, w, a)) && Note(ev, w, a).sent <= Note(ev, w, a).stored
  {
  }

  // ---------- Journal calls and the workers that did not make them ----------

  ghost predicate MadeBy(op: Op, owner: Owner) {
    (op.Acquire? || op.Save? || op.Release?) && op.owner == owner
  }

  /** A row owned after someone else's call was owned before it, and is unchanged in content. */
  lemma ForeignCallKeepsView(j: JournalState, op: Op, t: JournalState, reply: Reply, w: Worker)
    requires Effects(j, op, t, reply) && !MadeBy(op, w.owner) && View(j, w)
    ensures View(t, w)
  {
    forall id | id in t.rows && t.rows[id].owner == Some(w.owner)
      ensures id in j.rows && j.rows[id].owner == Some(w.owner)
      ensures t.rows[id].revision == j.rows[id].revision && t.rows[id].payload == j.rows[id].payload
    {
      assert RowEffect(j, op, t, reply, id);
    }
  }

  /** Payloads and owners after a call come from before it or from the call. */
  lemma CallKeepsRows(j: JournalState, op: Op, t: JournalState, reply: Reply, spawned: set<Owner>, ev: Evidence)
    requires RowsOk(j, spawned, ev) && Effects(j, op, t, reply)
    requires op.Create? || (op.Save? && reply.Snapshot?) ==> EntryShape(op.entry, ev) && Kept(op.entry, ev)
    requires op.Acquire? ==> op.owner in spawned
    ensures RowsOk(t, spawned, ev)
  {
    forall id | id in t.rows
      ensures EntryShape(t.rows[id].payload, ev) && Kept(t.rows[id].payload, ev)
      ensures t.rows[id].owner.Some? ==> t.rows[id].owner.value in spawned
    {
      assert RowEffect(j, op, t, reply, id);
    }
  }

  lemma RowsGrow(j: JournalState, spawned: set<Owner>, ev: Evidence, spawned': set<Owner>, ev': Evidence)
    requires RowsOk(j, spawned, ev) && EvidenceGrows(ev, ev') && spawned <= spawned'
    ensures RowsOk(j, spawned', ev')
  {
  }

  /** Workers other than the acting one keep what they know when a call is served. */
  lemma OthersKeep(g: World, op: Op, t: JournalState, reply: Reply, owner: Owner, ev: Evidence)
    requires WorldInv(g) && EvidenceGrows(g.ev, ev) && Effects(g.journal, op, t, reply)
    requires forall o :: o in g.workers && o != owner ==> !MadeBy(op, o)
    ensures forall o :: o in g.workers && o != owner ==> LocalOk(g.workers[o], ev) && View(t, g.workers[o])
  {
    forall o | o in g.workers && o != owner ensures LocalOk(g.workers[o], ev) && View(t, g.workers[o]) {
      LocalGrows(g.workers[o], g.ev, ev);
      ForeignCallKeepsView(g.journal, op, t, reply, g.workers[o]);
    }
  }

  // ---------- Every action keeps the invariant ----------

  /** A world in which one call was served and at most one worker moved. */
  lemma Served(g: World, op: Op, reply: Reply, owner: Owner, h: World)
    requires WorldInv(g) && Inv(h.journal) && Effects(g.journal, op, h.journal, reply)
    requires forall o :: o in g.workers && o != owner ==> !MadeBy(op, o)
    requires EvidenceGrows(g.ev, h.ev) && h.ev.sent <= h.ev.stored && h.spawned == g.spawned
    requires op.Create? || (op.Save? && reply.Snapshot?) ==> EntryShape(op.entry, h.ev) && Kept(op.entry, h.ev)
    requires op.Acquire? ==> op.owner in g.spawned
    requires forall o :: o in h.workers && o != owner ==> o in g.workers && h.workers[o] == g.workers[o]
    requires owner in h.workers ==> owner in g.spawned && h.workers[owner].owner == owner
    requires owner in h.workers ==> LocalOk(h.workers[owner], h.ev) && View(h.journal, h.workers[owner])
    ensures WorldInv(h)
  {
    RowsGrow(g.journal, g.spawned, g.ev, g.spawned, h.ev);
    CallKeepsRows(g.journal, op, h.journal, reply, g.spawned, h.ev);
    OthersKeep(g, op, h.journal, reply, owner, h.ev);
  }

  /** The acting worker's own row after its acquisition was granted. */
  lemma LeasedView(j: JournalState, t: JournalState, w: Worker, op: Op, reply: Reply)
    requires View(j, w) && w.stage == Acquiring && Effects(j, op, t, reply)
    requires op.Acquire? && op.id == w.id && op.owner == w.owner && reply.Snapshot?
    requires w.id in t.rows && t.rows[w.id].revision == reply.revision && t.rows[w.id].payload == reply.entry
    ensures forall stage: Stage :: !stage.Acquiring? ==> View(t, At(See(w, reply), stage))
  {
    forall id | id in t.rows && t.rows[id].owner == Some(w.owner) ensures id == w.id {
      assert RowEffect(j, op, t, reply, id);
    }
  }

  lemma AcquireKeeps(g: World, a: Action)
    requires WorldInv(g) && a.Acquire?
    ensures WorldInv(Step(g, a))
  {
    if a.owner in g.workers && g.workers[a.owner].stage == Acquiring {
      var w := g.workers[a.owner];
      var op := IssuanceJournal.Op.Acquire(w.id, a.owner, a.signer);
      var (j, reply) := Execute(g.journal, a.time, op);
      StepKeepsInv(g.journal, a.time, op);
      CallEffects(g.journal, a.time, op);
      if reply.Snapshot? {
        LeasedSnapshot(g.journal, a.time, w.id, a.owner, a.signer);
      }
      if a.delivered && reply.Snapshot? {
        LeasedWorld(g, w, op, j, reply, a.clock, Step(g, a));
      } else {
        RefusedWorld(g, w, op, j, reply, Step(g, a));
      }
    }
  }

  /** The world after a lease was granted and the worker learned of it. */
  lemma LeasedWorld(g: World, w: Worker, op: Op, j: JournalState, reply: Reply, clock: nat, h: World)
    requires WorldInv(g) && w.owner in g.workers && w == g.workers[w.owner] && w.stage == Acquiring
    requires op.Acquire? && op.id == w.id && op.owner == w.owner && reply.Snapshot?
    requires Inv(j) && Effects(g.journal, op, j, reply)
    requires w.id in g.journal.rows && reply == Snapshot(g.journal.rows[w.id].revision, g.journal.rows[w.id].payload)
    requires w.id in j.rows && j.rows[w.id].revision == reply.revision && j.rows[w.id].payload == reply.entry
    requires h == Put(g.(journal := j), At(See(w, reply), Start(See(w, reply), clock)))
    ensures WorldInv(h)
  {
    assert RowOk(g.journal, w.id);
    StartOk(See(w, reply), clock, g.ev);
    LeasedView(g.journal, j, w, op, reply);
    Served(g, op, reply, w.owner, h);
  }

  /** The world after the worker ended without a lease it knows of. */
  lemma RefusedWorld(g: World, w: Worker, op: Op, j: JournalState, reply: Reply, h: World)
    requires WorldInv(g) && w.owner in g.workers && w == g.workers[w.owner]
    requires op.Acquire? && op.owner == w.owner && Inv(j) && Effects(g.journal, op, j, reply)
    requires h == Gone(g.(journal := j), w.owner)
    ensures WorldInv(h)
  {
    Served(g, op, reply, w.owner, h);
  }

  lemma LeasedSnapshot(j: JournalState, time: nat, id: Id, owner: Owner, signer: Signer)
    requires Execute(j, time, IssuanceJournal.Op.Acquire(id, owner, signer)).1.Snapshot?
    ensures var (t, reply) := Execute(j, time, IssuanceJournal.Op.Acquire(id, owner, signer));
            id in j.rows && id in t.rows && reply == Snapshot(j.rows[id].revision, j.rows[id].payload)
            && t.rows[id].revision == reply.revision && t.rows[id].payload == reply.entry
  {
  }

  lemma AnsweredKeeps(g: World, a: Action)
    requires WorldInv(g) && a.Answered?
    ensures WorldInv(Step(g, a))
  {
    if a.owner in g.workers && Asking(g.workers[a.owner].stage) {
      var w := g.workers[a.owner];
      RespondOk(w, a.answer, a.clock, g.ev);
      NoteGrows(g.ev, w, a.answer);
      NothingHappens(g.journal, 0);
      assert View(g.journal, Respond(w, a.answer, a.clock));
      Served(g, Get(0), Released, a.owner, Step(g, a));
    }
  }

  /** Passing time alone is a call that touches no row. */
  lemma NothingHappens(j: JournalState, time: nat)
    ensures Effects(j, Get(0), Advance(j, time), Released) && Effects(j, Get(0), j, Released)
  {
  }

  /** The acting worker's own row after its save was acknowledged. */
  lemma SavedView(j: JournalState, t: JournalState, w: Worker, op: Op, reply: Reply)
    requires View(j, w) && !w.stage.Acquiring? && !w.stage.Releasing? && Effects(j, op, t, reply)
    requires op.Save? && op.entry.id == w.id && op.owner == w.owner && reply == Snapshot(w.revision + 1, op.entry)
    requires w.id in t.rows && t.rows[w.id].revision == reply.revision && t.rows[w.id].payload == reply.entry
    ensures forall stage: Stage :: !stage.Acquiring? ==> View(t, At(See(w, reply), stage))
  {
    forall id | id in t.rows && t.rows[id].owner == Some(w.owner) ensures id == w.id {
      assert RowEffect(j, op, t, reply, id);
    }
  }

  /** A worker on its way out claims nothing about its row. */
  lemma LeavingView(j: JournalState, w: Worker, ev: Evidence)
    requires SeenOk(w, ev)
    ensures View(j, At(w, Releasing)) && Ready(At(w, Releasing), ev)
  {
  }

  lemma SaveKeeps(g: World, a: Action)
    requires WorldInv(g) && a.SaveServed?
    ensures WorldInv(Step(g, a))
  {
    if a.owner in g.workers && g.workers[a.owner].stage.Saving? {
      var w := g.workers[a.owner];
      var op := Save(w.stage.entry, a.owner, w.revision, a.canExpire);
      var reply := Execute(g.journal, a.time, op).1;
      assert Ready(w, g.ev) && Change(w.seen, w.stage.entry, g.ev) && NextOk(w.stage.entry, w.stage.next);
      if reply.Snapshot? {
        SaveAcknowledged(g, a, w, op, Step(g, a));
      } else {
        SaveRefused(g, a, w, op, Step(g, a));
      }
    }
  }

  lemma SaveRefused(g: World, a: Action, w: Worker, op: Op, h: World)
    requires WorldInv(g) && a.SaveServed? && a.owner in g.workers && w == g.workers[a.owner] && Ready(w, g.ev)
    requires op.Save? && op.owner == a.owner && !Execute(g.journal, a.time, op).1.Snapshot?
    requires h == Put(g.(journal := Execute(g.journal, a.time, op).0), At(w, Releasing))
    ensures WorldInv(h)
  {
    StepKeepsInv(g.journal, a.time, op);
    CallEffects(g.journal, a.time, op);
    LeavingView(h.journal, w, g.ev);
    Served(g, op, Execute(g.journal, a.time, op).1, a.owner, h);
  }

  lemma StoreOk(w: Worker, ev: Evidence, e: Entry)
    requires SeenOk(w, ev) && Change(w.seen, e, ev) && ev.sent <= ev.stored
    ensures var ev' := Store(ev, e);
            EvidenceGrows(ev, ev') && ev'.sent <= ev'.stored && EntryShape(e, ev') && Kept(e, ev') && SeenOk(w, ev')
  {
  }

  lemma AcknowledgedOk(j: JournalState, t: JournalState, w: Worker, op: Op, reply: Reply, delivered: bool, clock: nat,
      ev: Evidence)
    requires View(j, w) && w.stage.Saving? && Effects(j, op, t, reply) && SeenOk(w, ev)
    requires op.Save? && op.entry == w.stage.entry && op.entry.id == w.id && op.owner == w.owner &&
        reply == Snapshot(w.revision + 1, op.entry)
    requires w.id in t.rows && t.rows[w.id].revision == reply.revision && t.rows[w.id].payload == reply.entry
    requires EntryShape(op.entry, ev) && Kept(op.entry, ev) && NextOk(op.entry, w.stage.next)
    ensures Ready(Acknowledged(w, reply, delivered, clock), ev) && View(t, Acknowledged(w, reply, delivered, clock))
  {
    ResumeOk(See(w, reply), w.stage.next, clock, ev);
    SavedView(j, t, w, op, reply);
    LeavingView(t, w, ev);
  }

  lemma SaveAcknowledged(g: World, a: Action, w: Worker, op: Op, h: World)
    requires WorldInv(g) && a.SaveServed? && a.owner in g.workers && w == g.workers[a.owner] && Ready(w, g.ev) &&
        w.stage.Saving?
    requires op == Save(w.stage.entry, a.owner, w.revision, a.canExpire) && Execute(g.journal, a.time, op).1.Snapshot?
    requires Change(w.seen, w.stage.entry, g.ev) && NextOk(w.stage.entry, w.stage.next)
    requires h == Put(g.(journal := Execute(g.journal, a.time, op).0, ev := Store(g.ev, w.stage.entry)),
                      Acknowledged(w, Execute(g.journal, a.time, op).1, a.delivered, a.clock))
    ensures WorldInv(h)
  {
    var e := w.stage.entry;
    SaveFacts(g.journal, a.time, e, a.owner, w.revision, a.canExpire);
    SavedWorld(g, w, op, Execute(g.journal, a.time, op).0, a.delivered, a.clock, h);
  }

  /** The world after a save that was accepted, seen through what a call does to the journal. */
  lemma SavedWorld(g: World, w: Worker, op: Op, j: JournalState, delivered: bool, clock: nat, h: World)
    requires WorldInv(g) && w.owner in g.workers && w == g.workers[w.owner] && Ready(w, g.ev) && w.stage.Saving?
    requires op.Save? && op.entry == w.stage.entry && op.owner == w.owner
    requires Inv(j) && Effects(g.journal, op, j, Snapshot(w.revision + 1, op.entry))
    requires op.entry.id in j.rows && j.rows[op.entry.id].revision == w.revision + 1
    requires j.rows[op.entry.id].payload == op.entry
    requires Change(w.seen, op.entry, g.ev) && NextOk(op.entry, w.stage.next)
    requires h == Put(g.(journal := j, ev := Store(g.ev, op.entry)),
                      Acknowledged(w, Snapshot(w.revision + 1, op.entry), delivered, clock))
    ensures WorldInv(h)
  {
    StoreOk(w, g.ev, op.entry);
    AcknowledgedOk(g.journal, j, w, op, Snapshot(w.revision + 1, op.entry), delivered, clock, h.ev);
    Served(g, op, Snapshot(w.revision + 1, op.entry), w.owner, h);
  }

  lemma SaveFacts(j: JournalState, time: nat, e: Entry, owner: Owner, revision: nat, canExpire: bool)
    requires Inv(j) && Execute(j, time, Save(e, owner, revision, canExpire)).1.Snapshot?
    ensures var (t, reply) := Execute(j, time, Save(e, owner, revision, canExpire));
            && Inv(t) && reply == Snapshot(revision + 1, e) && Effects(j, Save(e, owner, revision, canExpire), t, reply)
            && e.id in t.rows && t.rows[e.id].revision == revision + 1 && t.rows[e.id].payload == e
  {
    StepKeepsInv(j, time, Save(e, owner, revision, canExpire));
    CallEffects(j, time, Save(e, owner, revision, canExpire));
    SaveExtendsLatest(j, time, e, owner, revision, canExpire);
  }

  lemma ReadReply(j: JournalState, time: nat, id: Id)
    requires Execute(j, time, Get(id)).1.Snapshot?
    ensures id in j.rows && Execute(j, time, Get(id)).1 == Snapshot(j.rows[id].revision, j.rows[id].payload)
  {
  }

  /** A re-read entry with the revision the worker knows. */
  lemma RecoverOk(w: Worker, r: Reply, ev: Evidence)
    requires Ready(w, ev) && (r.Snapshot? ==> r.entry.id == w.id && EntryShape(r.entry, ev) && Kept(r.entry, ev))
    ensures Ready(Recover(w, r), ev) && !Recover(w, r).stage.Acquiring?
  {
  }

  /** An owned row is the one the worker knows, so re-reading it changes nothing in the worker's view. */
  lemma RecoverView(j: JournalState, t: JournalState, w: Worker, r: Reply)
    requires View(j, w) && w.stage == Recovering && View(t, w)
    requires r.Snapshot? ==> w.id in j.rows && r == Snapshot(j.rows[w.id].revision, j.rows[w.id].payload)
    requires w.id in t.rows ==> w.id in j.rows && t.rows[w.id] == j.rows[w.id]
    ensures View(t, Recover(w, r))
  {
  }

  lemma ReadChangesNothing(j: JournalState, time: nat, id: Id)
    ensures var t := Execute(j, time, Get(id)).0; forall k :: k in t.rows ==> k in j.rows && t.rows[k] == j.rows[k]
  {
  }

  lemma RereadKeeps(g: World, a: Action)
    requires WorldInv(g) && a.Reread?
    ensures WorldInv(Step(g, a))
  {
    if a.owner in g.workers && g.workers[a.owner].stage == Recovering {
      var w := g.workers[a.owner];
      var op := Get(w.id);
      var (j, reply) := Execute(g.journal, a.time, op);
      StepKeepsInv(g.journal, a.time, op);
      CallEffects(g.journal, a.time, op);
      ForeignCallKeepsView(g.journal, op, j, reply, w);
      ReadChangesNothing(g.journal, a.time, w.id);
      if reply.Snapshot? {
        ReadReply(g.journal, a.time, w.id);
        assert RowOk(g.journal, w.id);
      }
      RecoverOk(w, reply, g.ev);
      RecoverView(g.journal, j, w, reply);
      LeavingView(j, w, g.ev);
      Served(g, op, reply, a.owner, Step(g, a));
    }
  }

  lemma ReleaseKeeps(g: World, owner: Owner, time: nat)
    requires WorldInv(g) && owner in g.workers
    ensures WorldInv(Gone(g.(journal := Execute(g.journal, time,
        IssuanceJournal.Op.Release(g.workers[owner].id, owner)).0), owner))
  {
    var op := IssuanceJournal.Op.Release(g.workers[owner].id, owner);
    var (j, reply) := Execute(g.journal, time, op);
    StepKeepsInv(g.journal, time, op);
    CallEffects(g.journal, time, op);
    Served(g, op, reply, owner, Gone(g.(journal := j), owner));
  }

  lemma CreateKeeps(g: World, time: nat, e: Entry, canExpire: bool)
    requires WorldInv(g) && Fresh(e)
    ensures WorldInv(g.(journal := Execute(g.journal, time, Create(e, canExpire)).0))
  {
    var op := Create(e, canExpire);
    var (j, reply) := Execute(g.journal, time, op);
    StepKeepsInv(g.journal, time, op);
    CallEffects(g.journal, time, op);
    OthersCreateKeep(g, op, j, reply);
  }

  lemma OthersCreateKeep(g: World, op: Op, j: JournalState, reply: Reply)
    requires WorldInv(g) && op.Create? && Fresh(op.entry) && Inv(j) && Effects(g.journal, op, j, reply)
    ensures WorldInv(g.(journal := j))
  {
    CallKeepsRows(g.journal, op, j, reply, g.spawned, g.ev);
    forall o | o in g.workers ensures View(j, g.workers[o]) {
      ForeignCallKeepsView(g.journal, op, j, reply, g.workers[o]);
    }
  }

  lemma TickKeeps(g: World, time: nat)
    requires WorldInv(g)
    ensures WorldInv(g.(journal := Advance(g.journal, time)))
  {
    AdvanceKeepsInv(g.journal, time);
    assert forall id :: id in Advance(g.journal, time).rows ==>
                          id in g.journal.rows && Advance(g.journal, time).rows[id] == g.journal.rows[id];
  }

  /** A fresh owner holds no row. */
  lemma SpawnKeeps(g: World, w: Worker)
    requires WorldInv(g) && w.owner !in g.spawned && w.stage == Acquiring
    ensures WorldInv(Put(g, w).(spawned := g.spawned + {w.owner}))
  {
    RowsGrow(g.journal, g.spawned, g.ev, g.spawned + {w.owner}, g.ev);
  }

  lemma LeavingKeeps(g: World, owner: Owner)
    requires WorldInv(g)
    ensures WorldInv(Gone(g, owner))
    ensures owner in g.workers && g.workers[owner].stage != Acquiring ==>
        WorldInv(Put(g, At(g.workers[owner], Releasing)))
  {
    if owner in g.workers && g.workers[owner].stage != Acquiring {
      LeavingView(g.journal, g.workers[owner], g.ev);
    }
  }

  lemma OtherActionsKeep(g: World, a: Action)
    requires WorldInv(g) && (a.Tick? || a.NewRequest? || a.Spawn? || a.Crash? || a.SaveLost? || a.Release?)
    ensures WorldInv(Step(g, a))
  {
    match a {
      case Tick(time) => TickKeeps(g, time);
      case NewRequest(time, e, canExpire) => if Fresh(e) { CreateKeeps(g, time, e, canExpire); }
      case Spawn(owner, id, retryFailed, budgeted) =>
        if owner !in g.spawned {
          SpawnKeeps(g, Worker(id, owner, retryFailed, budgeted, false, 0, BlankEntry(id), Acquiring));
        }
      case Crash(owner) => LeavingKeeps(g, owner);
      case SaveLost(owner) => LeavingKeeps(g, owner);
      case Release(owner, time, reached) =>
        if reached && owner in g.workers {
          ReleaseKeeps(g, owner, time);
        } else {
          LeavingKeeps(g, owner);
        }
    }
  }

  lemma StepKeepsWorld(g: World, a: Action)
    requires WorldInv(g)
    ensures WorldInv(Step(g, a))
  {
    match a {
      case Acquire(_, _, _, _, _) => AcquireKeeps(g, a);
      case Answered(_, _, _) => AnsweredKeeps(g, a);
      case SaveServed(_, _, _, _, _) => SaveKeeps(g, a);
      case Reread(_, _, _) => RereadKeeps(g, a);
      case _ => OtherActionsKeep(g, a);
    }
  }

  lemma {:induction false} RunKeepsWorld(actions: seq<Action>)
    ensures WorldInv(Run(Initial(), actions))
  {
    if actions != [] {
      var n := |actions| - 1;
      RunKeepsWorld(actions[..n]);
      StepKeepsWorld(Run(Initial(), actions[..n]), actions[n]);
    }
  }

  // ---------- Over every run ----------

  /** The journal row of a request holds these signed bytes. */
  ghost predicate Holds(g: World, id: Id, t: Signed) {
    id in g.journal.rows && g.journal.rows[id].payload.transaction == Some(t)
  }

  /** Bytes enter the record of stored bytes only when the journal row holds them. */
  lemma StoredStep(g: World, a: Action, id: Id, t: Signed)
    requires (id, t) in Step(g, a).ev.stored && (id, t) !in g.ev.stored
    ensures Holds(Step(g, a), id, t)
  {
    if a.SaveServed? {
      var w := g.workers[a.owner];
      SaveExtendsLatest(g.journal, a.time, w.stage.entry, a.owner, w.revision, a.canExpire);
    }
  }

  lemma {:induction false} StoredWasHeld(actions: seq<Action>, id: Id, t: Signed)
    requires (id, t) in Run(Initial(), actions).ev.stored
    ensures exists k :: 0 <= k <= |actions| && Holds(Run(Initial(), actions[..k]), id, t)
  {
    var n := |actions| - 1;
    if (id, t) in Run(Initial(), actions[..n]).ev.stored {
      StoredWasHeld(actions[..n], id, t);
      var k :| 0 <= k <= n && Holds(Run(Initial(), actions[..n][..k]), id, t);
      assert actions[..n][..k] == actions[..k];
    } else {
      StoredStep(Run(Initial(), actions[..n]), actions[n], id, t);
      assert actions[..n + 1] == actions;
    }
  }

  /** The action that lets a worker's bytes leave: the answer to the last check before the broadcast. */
  predicate Broadcasts(g: World, a: Action, id: Id, t: Signed) {
    && a.Answered? && a.owner in g.workers && Asking(g.workers[a.owner].stage)
    && Continue(g.workers[a.owner], a.answer, a.clock) == Sending
    && g.workers[a.owner].id == id && g.workers[a.owner].seen.transaction == Some(t)
  }

  /**
   * Whatever crashes, stalls, lost replies and retries there were, bytes that leave for a request had been
   * stored durably in that request's row before.
   */
  lemma BroadcastWasStored(actions: seq<Action>, a: Action, id: Id, t: Signed)
    requires Broadcasts(Run(Initial(), actions), a, id, t)
    ensures exists k :: 0 <= k <= |actions| && Holds(Run(Initial(), actions[..k]), id, t)
  {
    RunKeepsWorld(actions);
    var w := Run(Initial(), actions).workers[a.owner];
    assert LocalOk(w, Run(Initial(), actions).ev);
    StoredWasHeld(actions, id, t);
  }

  /** The journal call an action makes, if any, besides saves. */
  function CallOf(g: World, a: Action): Option<Op> {
    match a
    case NewRequest(_, e, canExpire) => if Fresh(e) then Some(Create(e, canExpire)) else None
    case Acquire(owner, _, signer, _, _) =>
      if owner in g.workers && g.workers[owner].stage == Acquiring
          then Some(IssuanceJournal.Op.Acquire(g.workers[owner].id, owner, signer)) else None
    case Reread(owner, _, _) =>
      if owner in g.workers && g.workers[owner].stage == Recovering then Some(Get(g.workers[owner].id)) else None
    case Release(owner, _, reached) =>
      if reached && owner in g.workers && g.workers[owner].stage == Releasing
          then Some(IssuanceJournal.Op.Release(g.workers[owner].id, owner)) else None
    case _ => None
  }

  lemma StepCalls(g: World, a: Action)
    requires !a.SaveServed?
    ensures match CallOf(g, a)
            case Some(op) => Step(g, a).journal == Execute(g.journal, a.time, op).0
            case None => Step(g, a).journal == if a.Tick? then Advance(g.journal, a.time) else g.journal
  {
  }

  lemma UnsavedEntryStep(g: World, a: Action, id: Id)
    requires !a.SaveServed? && id in g.journal.rows && Live(g.journal.rows[id], Step(g, a).journal.now)
    ensures id in Step(g, a).journal.rows && Step(g, a).journal.rows[id].payload == g.journal.rows[id].payload
  {
    StepCalls(g, a);
    if CallOf(g, a).Some? {
      ServedNow(g.journal, a.time, CallOf(g, a).value);
      LiveRowsStay(g.journal, a.time, CallOf(g, a).value, id);
    }
  }

  ghost predicate MayBecome(a: Entry, b: Entry, ev: Evidence) {
    b == a || Change(a, b, ev)
  }

  /** The row a granted save replaces is the one its worker saw. */
  lemma SavedOverView(j: JournalState, w: Worker, ev: Evidence)
    requires View(j, w) && LocalOk(w, ev) && w.stage.Saving?
    requires w.stage.entry.id in j.rows && j.rows[w.stage.entry.id].owner == Some(w.owner)
    ensures MayBecome(j.rows[w.stage.entry.id].payload, w.stage.entry, ev)
  {
  }

  lemma SavedEntryStep(g: World, w: Worker, time: nat, canExpire: bool, id: Id)
    requires View(g.journal, w) && LocalOk(w, g.ev) && w.stage.Saving?
    requires id in g.journal.rows && Live(g.journal.rows[id], Max(g.journal.now, time))
    ensures var j := Execute(g.journal, time, Save(w.stage.entry, w.owner, w.revision, canExpire)).0;
            id in j.rows && MayBecome(g.journal.rows[id].payload, j.rows[id].payload, g.ev)
  {
    var e := w.stage.entry;
    var op := Save(e, w.owner, w.revision, canExpire);
    if e.id == id && Execute(g.journal, time, op).1.Snapshot? {
      SaveExtendsLatest(g.journal, time, e, w.owner, w.revision, canExpire);
      SavedOverView(g.journal, w, g.ev);
    } else {
      LiveRowsStay(g.journal, time, op, id);
    }
  }

  /** One action leaves a stored entry alone or saves a permitted change of it. */
  lemma EntryStep(g: World, a: Action, id: Id)
    requires WorldInv(g) && id in g.journal.rows && Live(g.journal.rows[id], Step(g, a).journal.now)
    ensures id in Step(g, a).journal.rows
    ensures MayBecome(g.journal.rows[id].payload, Step(g, a).journal.rows[id].payload, g.ev)
  {
    if !a.SaveServed? {
      UnsavedEntryStep(g, a, id);
    } else if a.owner in g.workers && g.workers[a.owner].stage.Saving? {
      ServedNow(g.journal, a.time, Save(g.workers[a.owner].stage.entry, a.owner, g.workers[a.owner].revision,
          a.canExpire));
      SavedEntryStep(g, g.workers[a.owner], a.time, a.canExpire, id);
    }
  }

  lemma ServedNow(j: JournalState, time: nat, op: Op)
    ensures Execute(j, time, op).0.now == Max(j.now, time)
  {
  }

  /**
   * In any reachable state one more action keeps the stored bytes of a request that has not expired,
   * or a receipt reported them reverted and they go, last, to the list of reverted bytes.
   */
  lemma BytesReplacedOnlyAfterRevert(actions: seq<Action>, a: Action, id: Id, t: Signed)
    requires Holds(Run(Initial(), actions), id, t)
    requires Live(Run(Initial(), actions).journal.rows[id], Step(Run(Initial(), actions), a).journal.now)
    ensures id in Step(Run(Initial(), actions), a).journal.rows
    ensures var g := Run(Initial(), actions);
            var before, after := g.journal.rows[id].payload, Step(g, a).journal.rows[id].payload;
            || (after.transaction == Some(t) && after.reverted == before.reverted)
            || (t in g.ev.reverts && before.phase == Failed && before.lastError == Some(SourceReverted)
                && after.transaction == None && after.reverted == before.reverted + [t])
  {
    RunKeepsWorld(actions);
    EntryStep(Run(Initial(), actions), a, id);
  }

  /** An entry with signed bytes holds its signer's gate until a receipt reported these bytes confirmed or reverted. */
  lemma GateGivenUpOnlyOnReceipt(actions: seq<Action>, a: Action, id: Id, t: Signed)
    requires OpenSignature(Run(Initial(), actions).journal, id) && Holds(Run(Initial(), actions), id, t)
    ensures HoldsGate(Run(Initial(), actions).journal, id)
    ensures !HoldsGate(Step(Run(Initial(), actions), a).journal, id) ==>
              Holds(Step(Run(Initial(), actions), a), id, t)
              && match Step(Run(Initial(), actions), a).journal.rows[id].payload.phase
                 case Failed => t in Step(Run(Initial(), actions), a).ev.reverts
                 case SourceConfirmed => t in Step(Run(Initial(), actions), a).ev.successes
                 case Materialized => t in Step(Run(Initial(), actions), a).ev.successes
                 case _ => false
  {
    RunKeepsWorld(actions);
    var g := Run(Initial(), actions);
    assert RowOk(g.journal, id);
    EntryStep(g, a, id);
    StepKeepsWorld(g, a);
    assert RowOk(Step(g, a).journal, id);
  }

  // ---------- Open transactions ----------

  predicate Reported(ev: Evidence, t: Signed) {
    t in ev.reverts || t in ev.successes
  }

  lemma EvidenceStays(g: World, a: Action)
    requires WorldInv(g)
    ensures EvidenceGrows(g.ev, Step(g, a).ev)
  {
    if a.Answered? && a.owner in g.workers && Asking(g.workers[a.owner].stage) {
      NoteGrows(g.ev, g.workers[a.owner], a.answer);
    }
  }

  /** An expiring row is finished, so its bytes were reported; any other keeps them or gave them up as reverted. */
  lemma LetGoIsReported(g: World, a: Action, id: Id, t: Signed)
    requires WorldInv(g) && Holds(g, id, t)
    ensures Holds(Step(g, a), id, t) || Reported(g.ev, t)
  {
    assert RowOk(g.journal, id);
    if Live(g.journal.rows[id], Step(g, a).journal.now) {
      EntryStep(g, a, id);
    }
  }

  /** All bytes ever stored for a request, except those its row holds now, were reported confirmed or reverted. */
  lemma {:induction false} OnlyHeldBytesAreOpen(actions: seq<Action>, id: Id, t: Signed)
    requires (id, t) in Run(Initial(), actions).ev.stored && !Holds(Run(Initial(), actions), id, t)
    ensures Reported(Run(Initial(), actions).ev, t)
  {
    var n := |actions| - 1;
    var g, a := Run(Initial(), actions[..n]), actions[n];
    RunKeepsWorld(actions[..n]);
    EvidenceStays(g, a);
    if (id, t) !in g.ev.stored {
      StoredStep(g, a, id, t);
    } else if Holds(g, id, t) {
      LetGoIsReported(g, a, id, t);
    } else {
      OnlyHeldBytesAreOpen(actions[..n], id, t);
    }
  }

  lemma HeldAndUnreportedIsOpen(g: World, id: Id, t: Signed)
    requires WorldInv(g) && Holds(g, id, t) && !Reported(g.ev, t)
    ensures OpenSignature(g.journal, id)
  {
  }

  /**
   * Over every run, of all bytes ever stored for requests of one signer at most one transaction is without
   * a report of its outcome.
   */
  lemma OneOpenTransactionPerSigner(actions: seq<Action>, id: Id, t: Signed, id': Id, t': Signed)
    requires (id, t) in Run(Initial(), actions).ev.stored && (id', t') in Run(Initial(), actions).ev.stored
    requires !Reported(Run(Initial(), actions).ev, t) && !Reported(Run(Initial(), actions).ev, t')
    ensures Holds(Run(Initial(), actions), id, t) && Holds(Run(Initial(), actions), id', t')
    ensures var rows := Run(Initial(), actions).journal.rows;
            rows[id].payload.signer == rows[id'].payload.signer ==> id == id' && t == t'
  {
    var g := Run(Initial(), actions);
    if !Holds(g, id, t) {
      OnlyHeldBytesAreOpen(actions, id, t);
    }
    if !Holds(g, id', t') {
      OnlyHeldBytesAreOpen(actions, id', t');
    }
    RunKeepsWorld(actions);
    HeldAndUnreportedIsOpen(g, id, t);
    HeldAndUnreportedIsOpen(g, id', t');
    assert RowOk(g.journal, id) && RowOk(g.journal, id');
  }
}
