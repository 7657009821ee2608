/**
 * The issuance journal kept in one Redis hash slot (pipeline/issuance-journal.ts, lines 66-170).
 * Every script call is one atomic step at server time; keys vanish when their expiry passes.
 */
module IssuanceJournal {
  import opened Prelude

  type Id = nat
  type Signer = nat
  type Owner = nat

  datatype Phase = Prepared | Submitted | SourceConfirmed | Materialized | Failed

  /** Signed bytes; equal values are the same bytes. */
  datatype Signed = Signed(hash: nat, nonce: nat, raw: nat)

  datatype Note = SourceReverted | PreparationExpired | NotApproved | AlreadyUsed | BroadcastUnconfirmed
      | DependencyUnavailable

  datatype Entry = Entry(
    id: Id, signer: Signer, approved: bool, phase: Phase, prepareUntil: nat, expiry: nat,
    evidenceStored: bool, transaction: Option<Signed>, reverted: seq<Signed>,
    confirmation: Option<nat>, lastError: Option<Note>)

  predicate NeedsSigner(e: Entry) {
    e.approved && (e.phase == Prepared || e.phase == Submitted)
  }

  predicate Terminal(e: Entry) {
    e.phase == Failed || e.phase == Materialized
  }

  /** The request hash, with its key expiry. */
  datatype Row = Row(
    revision: nat, payload: Entry, signer: Signer, needsSigner: bool,
    owner: Option<Owner>, leaseUntil: nat, terminalExpiresAt: Option<nat>, expiresAt: Option<nat>)

  datatype JournalState = JournalState(now: nat, rows: map<Id, Row>, gate: map<Signer, Id>, active: set<Id>,
      pending: map<Id, nat>)

  datatype Code = Unavailable | RetentionInvalid | DeadlinePassed | NotFound | TargetConflict | RequestBusy
      | SignerBusy | LeaseLost | RevisionConflict

  datatype Reply = Snapshot(revision: nat, entry: Entry) | Released | Refused(code: Code)

  /** canExpire tells whether the server grants the expiry command, probed before terminal writes. */
  datatype Op =
    | Create(entry: Entry, canExpire: bool)
    | Get(id: Id)
    | Acquire(id: Id, owner: Owner, signer: Signer)
    | Save(entry: Entry, owner: Owner, revision: nat, canExpire: bool)
    | Release(id: Id, owner: Owner)
  {
    function Key(): Id {
      if Create? || Save? then entry.id else id
    }
  }

  const RETENTION_MS := 86_400_000
  const LEASE_MS := 30_000

  // ---------- Specification of one call ----------

  predicate Live(row: Row, now: nat) {
    row.expiresAt.None? || now < row.expiresAt.value
  }

  /** Server time moves forward only; expired keys are gone. */
  function Advance(s: JournalState, now: nat): JournalState {
    var t := Max(s.now, now);
    s.(now := t, rows := map id | id in s.rows && Live(s.rows[id], t) :: s.rows[id])
  }

  /** The checks made before any operation on a key. */
  function Barrier(s: JournalState, op: Op): Option<Code> {
    if (op.Create? || op.Save?) && Terminal(op.entry) && !op.canExpire then Some(Unavailable)
    else if op.Key() !in s.rows || s.rows[op.Key()].terminalExpiresAt.None? then None
    else
      var until := s.rows[op.Key()].terminalExpiresAt.value;
      if until == 0 || until > MAX_SAFE_INTEGER then Some(RetentionInvalid)
      else if until <= s.now then Some(DeadlinePassed)
      else None
  }

  function SnapshotOf(row: Row): Reply {
    Snapshot(row.revision, row.payload)
  }

  /** One deadline for a completion episode: an earlier one is kept. */
  function TerminalDeadline(row: Row, now: nat): nat {
    match (row.terminalExpiresAt, row.expiresAt)
    case (Some(saved), Some(current)) => if current < saved then current else saved
    case (Some(saved), None) => saved
    case (None, Some(current)) => current
    case (None, None) => now + RETENTION_MS
  }

  function Retained(s: JournalState, id: Id, row: Row, until: nat): JournalState {
    if Terminal(row.payload)
    then s.(rows := s.rows[id := row.(terminalExpiresAt := Some(until), expiresAt := Some(until))],
        pending := s.pending - {id})
    else s.(rows := s.rows[id := row.(terminalExpiresAt := None, expiresAt := None)],
            pending := if id in s.pending then s.pending else s.pending[id := s.now])
  }

  function CreateRow(s: JournalState, e: Entry): (JournalState, Reply) {
    if e.id in s.rows then (s, SnapshotOf(s.rows[e.id]))
    else (Retained(s, e.id, Row(1, e, e.signer, NeedsSigner(e), None, 0, None, None), s.now + RETENTION_MS),
        Snapshot(1, e))
  }

  predicate GateFree(s: JournalState, signer: Signer, id: Id) {
    signer !in s.gate || s.gate[signer] == id
  }

  function TakeGate(s: JournalState, signer: Signer, id: Id): JournalState {
    s.(gate := s.gate[signer := id], active := s.active + {id})
  }

  function DropGate(s: JournalState, signer: Signer, id: Id): JournalState {
    s.(gate := if signer in s.gate && s.gate[signer] == id then s.gate - {signer}
        else s.gate, active := s.active - {id})
  }

  function AcquireRow(s: JournalState, id: Id, owner: Owner, signer: Signer): (JournalState, Reply)
    requires id in s.rows
  {
    var row := s.rows[id];
    if row.signer != signer then (s, Refused(TargetConflict))
    else if row.leaseUntil > s.now then (s, Refused(RequestBusy))
    else if row.needsSigner && !GateFree(s, signer, id) then (s, Refused(SignerBusy))
    else
      var t := s.(rows := s.rows[id := row.(owner := Some(owner), leaseUntil := s.now + LEASE_MS)]);
      (if row.needsSigner then TakeGate(t, signer, id) else t, SnapshotOf(row))
  }

  function SaveRow(s: JournalState, e: Entry, owner: Owner, revision: nat): (JournalState, Reply)
    requires e.id in s.rows
  {
    var row := s.rows[e.id];
    if row.signer != e.signer then (s, Refused(TargetConflict))
    else if row.owner != Some(owner) || row.leaseUntil <= s.now then (s, Refused(LeaseLost))
    else if row.revision != revision then (s, Refused(RevisionConflict))
    else if NeedsSigner(e) && !GateFree(s, e.signer, e.id) then (s, Refused(SignerBusy))
    else
      var t := if NeedsSigner(e) then TakeGate(s, e.signer, e.id) else DropGate(s, e.signer, e.id);
      var next := row.(payload := e, needsSigner := NeedsSigner(e), leaseUntil := s.now + LEASE_MS,
          revision := row.revision + 1);
      (Retained(t, e.id, next, TerminalDeadline(row, s.now)), Snapshot(row.revision + 1, e))
  }

  function ReleaseRow(s: JournalState, id: Id, owner: Owner): (JournalState, Reply)
    requires id in s.rows
  {
    var row := s.rows[id];
    (if row.owner == Some(owner) then s.(rows := s.rows[id := row.(owner := None, leaseUntil := 0)]) else s, Released)
  }

  function Execute(s: JournalState, now: nat, op: Op): (JournalState, Reply) {
    var t := Advance(s, now);
    var barrier := Barrier(t, op);
    if barrier.Some? then (t, Refused(barrier.value))
    else Handled(t, op)
  }

  /** A call that no barrier stops. */
  function Handled(t: JournalState, op: Op): (JournalState, Reply) {
    if op.Create? then CreateRow(t, op.entry)
    else if op.Key() !in t.rows then (t, Refused(NotFound))
    else
      match op
      case Get(id) => (t, SnapshotOf(t.rows[id]))
      case Acquire(id, owner, signer) => AcquireRow(t, id, owner, signer)
      case Save(e, owner, revision, _) => SaveRow(t, e, owner, revision)
      case Release(id, owner) => ReleaseRow(t, id, owner)
  }

  /** Most requests one look at the queue returns besides the gate holders. */
  const QUEUE_LIMIT := 1000

  /** Order of the sorted set of waiting requests: by the time they were queued, then by name. */
  predicate Before(pending: map<Id, nat>, a: Id, b: Id)
    requires a in pending && b in pending
  {
    pending[a] < pending[b] || (pending[a] == pending[b] && a < b)
  }

  /** The first of the waiting requests, all of them unless there are more than the limit. */
  ghost predicate Oldest(pending: map<Id, nat>, limit: nat, oldest: seq<Id>) {
    && |oldest| == Min(limit, |pending|) && (forall id :: id in oldest ==> id in pending)
    && (forall i, j :: 0 <= i < j < |oldest| ==> Before(pending, oldest[i], oldest[j]))
    && (forall i, id :: 0 <= i < |oldest| && id in pending && id !in oldest ==> Before(pending, oldest[i], id))
  }

  // ---------- The script, key by key ----------

  class RedisJournal {
    var now: nat
    var rows: map<Id, Row>
    var gate: map<Signer, Id>
    var active: set<Id>
    var pending: map<Id, nat>

    ghost function State(): JournalState
      reads this
    {
      JournalState(now, rows, gate, active, pending)
    }

    constructor ()
      ensures State() == JournalState(0, map[], map[], {}, map[])
    {
      now, rows, gate, active, pending := 0, map[], map[], {}, map[];
    }

    method Retain(id: Id, until: nat)
      requires id in rows
      modifies this`rows, this`pending
      ensures State() == Retained(old(State()), id, old(rows[id]), until)
    {
      if Terminal(rows[id].payload) {
        rows := rows[id := rows[id].(terminalExpiresAt := Some(until))];
        rows := rows[id := rows[id].(expiresAt := Some(until))];
        pending := pending - {id};
      } else {
        rows := rows[id := rows[id].(terminalExpiresAt := None)];
        rows := rows[id := rows[id].(expiresAt := None)];
        if id !in pending {
          pending := pending[id := now];
        }
      }
    }

    method Run(time: nat, op: Op) returns (reply: Reply)
      modifies this
      ensures (State(), reply) == Execute(old(State()), time, op)
    {
      now := Max(now, time);
      rows := map id | id in rows && Live(rows[id], now) :: rows[id];
      var barrier := Stopped(op);
      if barrier.Some? {
        return Refused(barrier.value);
      }
      reply := Handle(op);
    }

    /** The checks made before any operation on a key. */
    method Stopped(op: Op) returns (code: Option<Code>)
      ensures code == Barrier(State(), op)
    {
      if (op.Create? || op.Save?) && Terminal(op.entry) && !op.canExpire {
        return Some(Unavailable);
      }
      var id := op.Key();
      if id in rows && rows[id].terminalExpiresAt.Some? {
        var until := rows[id].terminalExpiresAt.value;
        if until == 0 || until > MAX_SAFE_INTEGER {
          return Some(RetentionInvalid);
        }
        if until <= now {
          return Some(DeadlinePassed);
        }
      }
      return None;
    }

    method Handle(op: Op) returns (reply: Reply)
      modifies this
      ensures (State(), reply) == Handled(old(State()), op)
    {
      var id := op.Key();
      if op.Create? {
        reply := StoreNew(op.entry);
        return;
      }
      if id !in rows {
        return Refused(NotFound);
      }
      match op {
        case Get(_) =>
          reply := SnapshotOf(rows[id]);
        case Acquire(_, owner, signer) =>
          reply := TakeLease(id, owner, signer);
        case Save(e, owner, revision, _) =>
          reply := StoreEntry(e, owner, revision);
        case Release(_, owner) =>
          if rows[id].owner == Some(owner) {
            rows := rows[id := rows[id].(owner := None, leaseUntil := 0)];
          }
          reply := Released;
      }
    }

    method StoreNew(e: Entry) returns (reply: Reply)
      modifies this
      ensures (State(), reply) == CreateRow(old(State()), e)
    {
      if e.id !in rows {
        ghost var before := rows;
        rows := rows[e.id := Row(1, e, e.signer, NeedsSigner(e), None, 0, None, None)];
        Retain(e.id, now + RETENTION_MS);
        assert rows == before[e.id := rows[e.id]];
      }
      return SnapshotOf(rows[e.id]);
    }

    method TakeLease(id: Id, owner: Owner, signer: Signer) returns (reply: Reply)
      requires id in rows
      modifies this`rows, this`gate, this`active
      ensures (State(), reply) == AcquireRow(old(State()), id, owner, signer)
    {
      if rows[id].signer != signer {
        return Refused(TargetConflict);
      }
      if rows[id].leaseUntil > now {
        return Refused(RequestBusy);
      }
      if rows[id].needsSigner {
        if signer in gate && gate[signer] != id {
          return Refused(SignerBusy);
        }
        gate := gate[signer := id];
        active := active + {id};
      }
      rows := rows[id := rows[id].(owner := Some(owner), leaseUntil := now + LEASE_MS)];
      return SnapshotOf(rows[id]);
    }

    method StoreEntry(e: Entry, owner: Owner, revision: nat) returns (reply: Reply)
      requires e.id in rows
      modifies this
      ensures (State(), reply) == SaveRow(old(State()), e, owner, revision)
    {
      var id := e.id;
      if rows[id].signer != e.signer {
        return Refused(TargetConflict);
      }
      if rows[id].owner != Some(owner) || rows[id].leaseUntil <= now {
        return Refused(LeaseLost);
      }
      if rows[id].revision != revision {
        return Refused(RevisionConflict);
      }
      var until := TerminalDeadline(rows[id], now);
      if NeedsSigner(e) {
        if e.signer in gate && gate[e.signer] != id {
          return Refused(SignerBusy);
        }
        gate := gate[e.signer := id];
        active := active + {id};
      } else {
        if e.signer in gate && gate[e.signer] == id {
          gate := gate - {e.signer};
        }
        active := active - {id};
      }
      ghost var before := rows;
      rows := rows[id := rows[id].(payload := e, needsSigner := NeedsSigner(e), leaseUntil := now + LEASE_MS)];
      rows := rows[id := rows[id].(revision := rows[id].revision + 1)];
      Retain(id, until);
      assert rows == before[id := rows[id]];
      return SnapshotOf(rows[id]);
    }

    /** The first requests of the sorted set, at most the limit. */
    method FirstWaiting(limit: nat) returns (oldest: seq<Id>)
      ensures Oldest(pending, limit, oldest)
    {
      oldest := [];
      var todo := pending.Keys;
      while |oldest| < limit && todo != {}
        invariant todo <= pending.Keys && |oldest| + |todo| == |pending| && |oldest| <= limit
        invariant forall id :: id in oldest <==> id in pending && id !in todo
        invariant forall i, j :: 0 <= i < j < |oldest| ==> Before(pending, oldest[i], oldest[j])
        invariant forall i, id :: 0 <= i < |oldest| && id in todo ==> Before(pending, oldest[i], id)
      {
        var first := Earliest(todo);
        oldest, todo := oldest + [first], todo - {first};
      }
    }

    method Earliest(ids: set<Id>) returns (first: Id)
      requires ids != {} && ids <= pending.Keys
      ensures first in ids && forall id :: id in ids && id != first ==> Before(pending, first, id)
    {
      first :| first in ids;
      var todo := ids - {first};
      while todo != {}
        invariant todo <= ids && first in ids && first !in todo
        invariant forall id :: id in ids && id !in todo && id != first ==> Before(pending, first, id)
      {
        var id :| id in todo;
        todo := todo - {id};
        if Before(pending, id, first) {
          first := id;
        }
      }
    }

    /** Gate holders, then the oldest waiting requests not among them. */
    method Pending() returns (ids: seq<Id>, ghost oldest: seq<Id>)
      ensures Oldest(pending, QUEUE_LIMIT, oldest)
      ensures forall id :: id in ids <==> id in active || id in oldest
      ensures forall i, j :: 0 <= i < j < |ids| ==> ids[i] != ids[j]
    {
      ids := [];
      var todo := active;
      while todo != {}
        invariant todo <= active
        invariant forall id :: id in ids <==> id in active && id !in todo
        invariant forall i, j :: 0 <= i < j < |ids| ==> ids[i] != ids[j]
      {
        var id :| id in todo;
        ids, todo := ids + [id], todo - {id};
      }
      var waiting := FirstWaiting(QUEUE_LIMIT);
      oldest := waiting;
      for k := 0 to |waiting|
        invariant forall id :: id in ids <==> id in active || id in waiting[..k]
        invariant forall i, j :: 0 <= i < j < |ids| ==> ids[i] != ids[j]
      {
        assert waiting[..k + 1] == waiting[..k] + [waiting[k]];
        if waiting[k] !in active {
          assert waiting[k] !in ids by {
            forall i | 0 <= i < k ensures waiting[i] != waiting[k] {
              assert Before(pending, waiting[i], waiting[k]);
            }
          }
          ids := ids + [waiting[k]];
        }
      }
      assert waiting[..|waiting|] == waiting;
    }
  }

  // ---------- Invariant ----------

  ghost predicate HoldsGate(s: JournalState, id: Id) {
    id in s.rows && s.rows[id].signer in s.gate && s.gate[s.rows[id].signer] == id
  }

  ghost predicate RowOk(s: JournalState, id: Id)
    requires id in s.rows
  {
    var row := s.rows[id];
    && row.payload.id == id && row.signer == row.payload.signer && row.needsSigner == NeedsSigner(row.payload) &&
        row.revision >= 1
    && (NeedsSigner(row.payload) && row.payload.transaction.Some? ==> HoldsGate(s, id))
    // Retention: a deadline exactly on terminal rows; a recorded deadline is the key's own expiry.
    && (Terminal(row.payload) <==> row.expiresAt.Some?)
    && (row.terminalExpiresAt.Some? ==> row.terminalExpiresAt == row.expiresAt)
    && (row.expiresAt.Some? ==> s.now < row.expiresAt.value)
    && (id in s.pending <==> !Terminal(row.payload))
  }

  /**
   * Holds of the empty journal and of one whose terminal rows predate the recorded deadline. The gate,
   * the active set and the rows that need a signer agree; nothing waiting is missing from the queue.
   */
  ghost predicate Inv(s: JournalState) {
    && (forall id :: id in s.rows ==> RowOk(s, id))
    && (forall g :: g in s.gate ==>
          HoldsGate(s, s.gate[g]) && s.rows[s.gate[g]].signer == g && s.rows[s.gate[g]].needsSigner)
    && (forall id :: id in s.active <==> HoldsGate(s, id))
    && (forall id :: id in s.pending ==> id in s.rows)
  }

  lemma AdvanceKeepsInv(s: JournalState, now: nat)
    requires Inv(s)
    ensures Inv(Advance(s, now))
  {
    var t := Advance(s, now);
    forall id | id in t.rows ensures RowOk(t, id) {
      assert RowOk(s, id);
    }
    forall g | g in t.gate ensures t.gate[g] in t.rows {
      assert HoldsGate(s, s.gate[g]) && RowOk(s, s.gate[g]);
    }
    forall id | id in s.active ensures HoldsGate(t, id) {
      assert RowOk(s, id);
    }
    forall id | id in s.pending ensures id in t.rows {
      assert RowOk(s, id);
    }
  }

  /** Nothing but one request's keys differs. */
  ghost predicate SameGates(s: JournalState, t: JournalState, id: Id) {
    && (forall g :: g in s.gate && s.gate[g] != id ==> g in t.gate && t.gate[g] == s.gate[g])
    && (forall g :: g in t.gate && t.gate[g] != id ==> g in s.gate && t.gate[g] == s.gate[g])
    && (forall k :: k != id ==> (k in t.active <==> k in s.active))
  }

  ghost predicate SameRows(s: JournalState, t: JournalState, id: Id) {
    && t.now == s.now
    && t.rows.Keys == s.rows.Keys + {id}
    && (forall k :: k in s.rows && k != id ==> t.rows[k] == s.rows[k])
    && (forall k :: k != id ==> (k in t.pending <==> k in s.pending))
  }

  ghost predicate SameElsewhere(s: JournalState, t: JournalState, id: Id) {
    SameGates(s, t, id) && SameRows(s, t, id)
  }

  lemma RetainedElsewhere(s: JournalState, t: JournalState, id: Id, row: Row, until: nat)
    requires t.rows == s.rows && t.pending == s.pending && t.now == s.now && SameGates(s, t, id)
    ensures SameElsewhere(s, Retained(t, id, row, until), id)
  {
  }

  lemma GateMoveElsewhere(s: JournalState, signer: Signer, id: Id)
    requires GateFree(s, signer, id)
    ensures SameGates(s, TakeGate(s, signer, id), id) && SameGates(s, DropGate(s, signer, id), id)
  {
  }

  /** What one request's keys must satisfy after they changed. */
  ghost predicate OwnKeysOk(t: JournalState, id: Id)
    requires id in t.rows
  {
    && RowOk(t, id)
    && (forall g :: g in t.gate && t.gate[g] == id ==> t.rows[id].signer == g && t.rows[id].needsSigner)
    && (id in t.active <==> HoldsGate(t, id))
  }

  lemma OneRequestChanged(s: JournalState, t: JournalState, id: Id)
    requires Inv(s) && SameElsewhere(s, t, id) && OwnKeysOk(t, id)
    ensures Inv(t)
  {
    forall k | k in t.rows ensures RowOk(t, k) {
      if k != id {
        assert RowOk(s, k);
        assert HoldsGate(s, k) ==> HoldsGate(t, k);
      }
    }
    forall g | g in t.gate
      ensures HoldsGate(t, t.gate[g]) && t.rows[t.gate[g]].signer == g && t.rows[t.gate[g]].needsSigner
    {
      if t.gate[g] != id {
        assert HoldsGate(s, s.gate[g]);
      }
    }
    forall k ensures k in t.active <==> HoldsGate(t, k) {
      if k != id {
        assert HoldsGate(s, k) <==> HoldsGate(t, k);
      }
    }
  }

  lemma CreateKeepsInv(s: JournalState, e: Entry)
    requires Inv(s) && e.transaction.None?
    ensures Inv(CreateRow(s, e).0)
  {
    if e.id !in s.rows {
      var row := Row(1, e, e.signer, NeedsSigner(e), None, 0, None, None);
      RetainedElsewhere(s, s, e.id, row, s.now + RETENTION_MS);
      FreshRowOk(s, e);
      OneRequestChanged(s, CreateRow(s, e).0, e.id);
    }
  }

  lemma FreshRowOk(s: JournalState, e: Entry)
    requires Inv(s) && e.transaction.None? && e.id !in s.rows
    ensures OwnKeysOk(CreateRow(s, e).0, e.id)
  {
    assert e.id !in s.active && e.id !in s.pending by { assert !HoldsGate(s, e.id); }
    assert forall g :: g in s.gate ==> s.gate[g] != e.id;
  }

  lemma AcquireKeepsInv(s: JournalState, id: Id, owner: Owner, signer: Signer)
    requires Inv(s) && id in s.rows
    ensures Inv(AcquireRow(s, id, owner, signer).0)
  {
    var (t, reply) := AcquireRow(s, id, owner, signer);
    assert RowOk(s, id);
    if reply.Snapshot? {
      LeaseElsewhere(s, id, owner, signer);
      OneRequestChanged(s, t, id);
    }
  }

  lemma LeaseElsewhere(s: JournalState, id: Id, owner: Owner, signer: Signer)
    requires id in s.rows && AcquireRow(s, id, owner, signer).1.Snapshot?
    ensures SameElsewhere(s, AcquireRow(s, id, owner, signer).0, id)
  {
    if s.rows[id].needsSigner {
      GateMoveElsewhere(s, signer, id);
    }
  }

  lemma SaveKeepsInv(s: JournalState, e: Entry, owner: Owner, revision: nat)
    requires Inv(s) && e.id in s.rows
    ensures Inv(SaveRow(s, e, owner, revision).0)
  {
    var (t, reply) := SaveRow(s, e, owner, revision);
    assert RowOk(s, e.id);
    if reply.Snapshot? {
      SaveElsewhere(s, e, owner, revision);
      SavedRowOk(s, e, owner, revision);
      OneRequestChanged(s, t, e.id);
    }
  }

  lemma SaveElsewhere(s: JournalState, e: Entry, owner: Owner, revision: nat)
    requires e.id in s.rows && SaveRow(s, e, owner, revision).1.Snapshot?
    ensures SameElsewhere(s, SaveRow(s, e, owner, revision).0, e.id)
  {
    var row := s.rows[e.id];
    var t := if NeedsSigner(e) then TakeGate(s, e.signer, e.id) else DropGate(s, e.signer, e.id);
    var next := row.(payload := e, needsSigner := NeedsSigner(e), leaseUntil := s.now + LEASE_MS,
        revision := row.revision + 1);
    if NeedsSigner(e) {
      GateMoveElsewhere(s, e.signer, e.id);
    } else {
      DropElsewhere(s, e.signer, e.id);
    }
    RetainedElsewhere(s, t, e.id, next, TerminalDeadline(row, s.now));
  }

  lemma DropElsewhere(s: JournalState, signer: Signer, id: Id)
    ensures SameGates(s, DropGate(s, signer, id), id)
  {
  }

  lemma SavedRowOk(s: JournalState, e: Entry, owner: Owner, revision: nat)
    requires Inv(s) && e.id in s.rows && SaveRow(s, e, owner, revision).1.Snapshot?
    ensures OwnKeysOk(SaveRow(s, e, owner, revision).0, e.id)
  {
    assert RowOk(s, e.id);
    assert forall g :: g in s.gate && s.gate[g] == e.id ==> g == e.signer;
    SavedRow(s, e, owner, revision);
    SavedGate(s, e, owner, revision);
  }

  /** The saved row carries the entry and its retention. */
  lemma SavedRow(s: JournalState, e: Entry, owner: Owner, revision: nat)
    requires e.id in s.rows && RowOk(s, e.id) && SaveRow(s, e, owner, revision).1.Snapshot?
    ensures var t := SaveRow(s, e, owner, revision).0;
            e.id in t.rows && RowOk(t, e.id) && t.rows[e.id].signer == e.signer && t.rows[e.id].payload == e
  {
  }

  /** The gate of its signer names the request exactly while it needs the signer. */
  lemma SavedGate(s: JournalState, e: Entry, owner: Owner, revision: nat)
    requires e.id in s.rows && SaveRow(s, e, owner, revision).1.Snapshot?
    requires forall g :: g in s.gate && s.gate[g] == e.id ==> g == e.signer
    ensures var t := SaveRow(s, e, owner, revision).0;
            && (forall g :: g in t.gate && t.gate[g] == e.id ==> g == e.signer && NeedsSigner(e))
            && (e.id in t.active <==> NeedsSigner(e))
            && (NeedsSigner(e) ==> e.signer in t.gate && t.gate[e.signer] == e.id)
  {
  }

  lemma ReleaseKeepsInv(s: JournalState, id: Id, owner: Owner)
    requires Inv(s) && id in s.rows
    ensures Inv(ReleaseRow(s, id, owner).0)
  {
    assert RowOk(s, id);
    var t := ReleaseRow(s, id, owner).0;
    assert SameGates(s, t, id) && SameRows(s, t, id);
    OneRequestChanged(s, t, id);
  }

  lemma StepKeepsInv(s: JournalState, now: nat, op: Op)
    requires Inv(s) && (op.Create? ==> op.entry.transaction.None?)
    ensures Inv(Execute(s, now, op).0)
  {
    AdvanceKeepsInv(s, now);
    var t := Advance(s, now);
    if Barrier(t, op).None? {
      if op.Create? {
        CreateKeepsInv(t, op.entry);
      } else if op.Key() in t.rows {
        match op {
          case Get(id) =>
          case Acquire(id, owner, signer) => AcquireKeepsInv(t, id, owner, signer);
          case Save(e, owner, revision, _) => SaveKeepsInv(t, e, owner, revision);
          case Release(id, owner) => ReleaseKeepsInv(t, id, owner);
        }
      }
    }
  }

  // ---------- What one call can do to a row ----------

  /** A row after a call is untouched, or the called one and changed only as its operation may. */
  ghost predicate RowEffect(s: JournalState, op: Op, t: JournalState, reply: Reply, k: Id)
    requires k in t.rows
  {
    var row := t.rows[k];
    || (k in s.rows && row == s.rows[k])
    || (k == op.Key() && op.Create? && row.payload == op.entry && row.owner.None? && row.revision == 1)
    || (k == op.Key() && op.Acquire? && k in s.rows && row.owner == Some(op.owner)
        && row.revision == s.rows[k].revision && row.payload == s.rows[k].payload)
    || (k == op.Key() && op.Save? && reply.Snapshot? && k in s.rows && s.rows[k].owner == Some(op.owner) == row.owner
        && s.rows[k].revision == op.revision && row.revision == op.revision + 1 && row.payload == op.entry)
    || (k == op.Key() && op.Release? && k in s.rows && s.rows[k].owner == Some(op.owner) && row.owner.None?
        && row.revision == s.rows[k].revision && row.payload == s.rows[k].payload)
  }

  ghost predicate Effects(s: JournalState, op: Op, t: JournalState, reply: Reply) {
    forall k :: k in t.rows ==> RowEffect(s, op, t, reply, k)
  }

  lemma CallEffects(s: JournalState, now: nat, op: Op)
    ensures Effects(s, op, Execute(s, now, op).0, Execute(s, now, op).1)
  {
    var a := Advance(s, now);
    var (t, reply) := Execute(s, now, op);
    assert forall k :: k in a.rows ==> k in s.rows && a.rows[k] == s.rows[k];
    if op.Save? && reply.Snapshot? {
      SaveElsewhere(a, op.entry, op.owner, op.revision);
    }
  }

  // ---------- Over every run ----------

  /** Calls in the order the server serves them, each with the clock reading it arrives under. */
  datatype Call = Call(time: nat, op: Op)

  function Run(s: JournalState, calls: seq<Call>): JournalState {
    if calls == [] then s
    else Execute(Run(s, calls[..|calls| - 1]), calls[|calls| - 1].time, calls[|calls| - 1].op).0
  }

  ghost predicate CreatedUnsigned(calls: seq<Call>) {
    forall c :: c in calls && c.op.Create? ==> c.op.entry.transaction.None?
  }

  lemma {:induction false} RunKeepsInv(s: JournalState, calls: seq<Call>)
    requires Inv(s) && CreatedUnsigned(calls)
    ensures Inv(Run(s, calls))
  {
    if calls != [] {
      var n := |calls| - 1;
      RunKeepsInv(s, calls[..n]);
      assert calls[n] in calls;
      StepKeepsInv(Run(s, calls[..n]), calls[n].time, calls[n].op);
    }
  }

  /** A stored signed transaction whose outcome is open. */
  ghost predicate OpenSignature(s: JournalState, id: Id) {
    id in s.rows && NeedsSigner(s.rows[id].payload) && s.rows[id].payload.transaction.Some?
  }

  /** However calls interleave and leases run out, one signer never has two open signatures. */
  lemma SignerGateExcludes(s: JournalState, calls: seq<Call>, id: Id, id': Id)
    requires Inv(s) && CreatedUnsigned(calls)
    requires OpenSignature(Run(s, calls), id) && OpenSignature(Run(s, calls), id')
    requires Run(s, calls).rows[id].payload.signer == Run(s, calls).rows[id'].payload.signer
    ensures id == id'
  {
    RunKeepsInv(s, calls);
    var t := Run(s, calls);
    assert RowOk(t, id) && RowOk(t, id');
  }

  /** The active set is exactly the set of gate holders, and whatever is not finished is kept and queued. */
  lemma QueueIsComplete(s: JournalState, calls: seq<Call>, id: Id)
    requires Inv(s) && CreatedUnsigned(calls)
    ensures var t := Run(s, calls);
            && (id in t.active <==> id in t.gate.Values)
            && (id in t.pending <==> id in t.rows && !Terminal(t.rows[id].payload))
            && (id in t.rows && !Terminal(t.rows[id].payload) ==> t.rows[id].expiresAt.None?)
  {
    RunKeepsInv(s, calls);
    var t := Run(s, calls);
    if id in t.rows {
      assert RowOk(t, id);
    }
    if id in t.gate.Values {
      var g :| g in t.gate && t.gate[g] == id;
      assert HoldsGate(t, t.gate[g]);
    }
    assert HoldsGate(t, id) ==> t.gate[t.rows[id].signer] in t.gate.Values;
  }

  /**
   * A successful save was computed from the revision stored immediately before it, by the owner of an
   * unexpired lease, and stores exactly its entry as the next revision.
   */
  lemma SaveExtendsLatest(s: JournalState, now: nat, e: Entry, owner: Owner, revision: nat, canExpire: bool)
    requires Execute(s, now, Save(e, owner, revision, canExpire)).1.Snapshot?
    ensures e.id in s.rows && s.rows[e.id].revision == revision && s.rows[e.id].owner == Some(owner) &&
        Max(s.now, now) < s.rows[e.id].leaseUntil
    ensures var t := Execute(s, now, Save(e, owner, revision, canExpire)).0;
            e.id in t.rows && t.rows[e.id].revision == revision + 1 && t.rows[e.id].payload == e &&
                t.rows[e.id].owner == Some(owner)
  {
  }

  /** Only a successful save of that request moves a stored revision or payload. */
  lemma OnlySavesChangeEntries(s: JournalState, now: nat, op: Op, id: Id)
    requires id in s.rows && id in Execute(s, now, op).0.rows && Live(s.rows[id], Max(s.now, now))
    requires !(op.Save? && op.entry.id == id && Execute(s, now, op).1.Snapshot?)
    ensures var t := Execute(s, now, op).0;
            t.rows[id].revision == s.rows[id].revision && t.rows[id].payload == s.rows[id].payload
            && t.rows[id].expiresAt == s.rows[id].expiresAt
  {
  }

  /** A call drops no live row and moves its entry only by a successful save. */
  lemma LiveRowsStay(s: JournalState, now: nat, op: Op, id: Id)
    requires id in s.rows && Live(s.rows[id], Max(s.now, now))
    requires !(op.Save? && op.entry.id == id && Execute(s, now, op).1.Snapshot?)
    ensures id in Execute(s, now, op).0.rows && Execute(s, now, op).0.rows[id].payload == s.rows[id].payload
  {
    assert id in Advance(s, now).rows;
  }

  /** The entries successfully saved for a request, in order. */
  function SavedEntries(s: JournalState, calls: seq<Call>, id: Id): seq<Entry> {
    if calls == [] then []
    else
      var n := |calls| - 1;
      var op := calls[n].op;
      SavedEntries(s, calls[..n], id)
      + if op.Save? && op.entry.id == id && Execute(Run(s, calls[..n]), calls[n].time, op).1.Snapshot? then [op.entry]
          else []
  }

  /** The request is stored and does not expire during the run. */
  ghost predicate Stays(s: JournalState, calls: seq<Call>, id: Id) {
    && id in s.rows
    && forall k :: 0 <= k < |calls| && id in Run(s, calls[..k]).rows ==>
        Live(Run(s, calls[..k]).rows[id], Max(Run(s, calls[..k]).now, calls[k].time))
  }

  lemma SaveStep(s: JournalState, c: Call, id: Id)
    requires id in s.rows && Live(s.rows[id], Max(s.now, c.time))
    ensures var (t, reply) := Execute(s, c.time, c.op);
            && id in t.rows
            && if c.op.Save? && c.op.entry.id == id && reply.Snapshot?
               then c.op.revision == s.rows[id].revision && t.rows[id].revision == s.rows[id].revision + 1 &&
                   t.rows[id].payload == c.op.entry
               else t.rows[id].revision == s.rows[id].revision && t.rows[id].payload == s.rows[id].payload
  {
    if c.op.Save? && c.op.entry.id == id && Execute(s, c.time, c.op).1.Snapshot? {
      SaveExtendsLatest(s, c.time, c.op.entry, c.op.owner, c.op.revision, c.op.canExpire);
    } else {
      LiveRowsStay(s, c.time, c.op, id);
      OnlySavesChangeEntries(s, c.time, c.op, id);
    }
  }

  lemma StaysPrefix(s: JournalState, calls: seq<Call>, id: Id)
    requires Stays(s, calls, id) && calls != []
    ensures Stays(s, calls[..|calls| - 1], id)
  {
    var n := |calls| - 1;
    assert forall k :: 0 <= k < n ==> calls[..n][..k] == calls[..k] && calls[..n][k] == calls[k];
  }

  /**
   * No update is lost: while a request is stored its revision counts the successful saves, however the calls
   * of different owners interleave, and its entry is the one saved last.
   */
  lemma {:induction false} SavesAreSequential(s: JournalState, calls: seq<Call>, id: Id)
    requires Stays(s, calls, id)
    ensures id in Run(s, calls).rows
    ensures var saved := SavedEntries(s, calls, id);
            && Run(s, calls).rows[id].revision == s.rows[id].revision + |saved|
            && Run(s, calls).rows[id].payload == if saved == [] then s.rows[id].payload else saved[|saved| - 1]
  {
    if calls != [] {
      var n := |calls| - 1;
      StaysPrefix(s, calls, id);
      SavesAreSequential(s, calls[..n], id);
      SaveStep(Run(s, calls[..n]), calls[n], id);
    }
  }

  /** Deadline of a finished request after one call: never later than before, a day ahead when it just finished. */
  lemma DeadlineStep(s: JournalState, now: nat, op: Op, id: Id)
    requires Inv(s) && id in s.rows && id in Execute(s, now, op).0.rows && Live(s.rows[id], Max(s.now, now))
    requires Terminal(Execute(s, now, op).0.rows[id].payload)
    ensures var t := Execute(s, now, op).0;
            var before, after := s.rows[id].expiresAt, t.rows[id].expiresAt;
            if Terminal(s.rows[id].payload) then before.Some? && after.Some? && after.value <= before.value
            else after == Some(t.now + RETENTION_MS)
  {
    assert RowOk(s, id);
    if op.Save? && op.entry.id == id && Execute(s, now, op).1.Snapshot? {
    } else {
      OnlySavesChangeEntries(s, now, op, id);
    }
  }

  /** From the start of the run to its end the request is stored, finished and never expires. */
  ghost predicate Episode(s: JournalState, calls: seq<Call>, id: Id) {
    && (forall k :: 0 <= k <= |calls| ==>
          id in Run(s, calls[..k]).rows && Terminal(Run(s, calls[..k]).rows[id].payload))
    && (forall k :: 0 <= k < |calls| ==> Live(Run(s, calls[..k]).rows[id], Max(Run(s, calls[..k]).now, calls[k].time)))
  }

  lemma EpisodePrefix(s: JournalState, calls: seq<Call>, id: Id)
    requires Episode(s, calls, id) && calls != []
    ensures Episode(s, calls[..|calls| - 1], id)
  {
    var before := calls[..|calls| - 1];
    assert forall k :: 0 <= k <= |before| ==> before[..k] == calls[..k];
    assert forall k :: 0 <= k < |before| ==> before[k] == calls[k];
  }

  /** Within one completion episode no call moves the deadline later than where it stood at the start. */
  lemma {:induction false} EpisodeDeadline(s: JournalState, calls: seq<Call>, id: Id)
    requires Inv(s) && CreatedUnsigned(calls) && Episode(s, calls, id)
    ensures Inv(Run(s, calls)) && id in s.rows && id in Run(s, calls).rows
    ensures s.rows[id].expiresAt.Some? && Run(s, calls).rows[id].expiresAt.Some?
    ensures Run(s, calls).rows[id].expiresAt.value <= s.rows[id].expiresAt.value
  {
    assert calls[..0] == [] && calls[..|calls|] == calls;
    assert RowOk(s, id);
    if calls != [] {
      var n := |calls| - 1;
      EpisodePrefix(s, calls, id);
      EpisodeDeadline(s, calls[..n], id);
      RunKeepsInv(s, calls);
      DeadlineStep(Run(s, calls[..n]), calls[n].time, calls[n].op, id);
      assert RowOk(Run(s, calls), id);
    }
  }

  /** The save that finishes a request sets its deadline a day ahead; nothing that follows postpones it. */
  lemma FinishedWithinADay(s: JournalState, finish: Call, calls: seq<Call>, id: Id)
    requires Inv(s) && id in s.rows && !Terminal(s.rows[id].payload) && CreatedUnsigned([finish] + calls)
    requires Episode(Execute(s, finish.time, finish.op).0, calls, id)
    ensures var t := Execute(s, finish.time, finish.op).0;
            && id in Run(t, calls).rows && Run(t, calls).rows[id].expiresAt.Some?
            && Run(t, calls).rows[id].expiresAt.value <= t.now + RETENTION_MS
  {
    assert RowOk(s, id);
    assert finish in [finish] + calls && forall c :: c in calls ==> c in [finish] + calls;
    StepKeepsInv(s, finish.time, finish.op);
    var t := Execute(s, finish.time, finish.op).0;
    assert calls[..0] == [];
    DeadlineStep(s, finish.time, finish.op, id);
    EpisodeDeadline(t, calls, id);
  }
}
