/**
 * One delivery run over the revocation outbox (pipeline/rescreen.ts, lines 52-86). What the transport
 * answers is input; between its awaits other processes may mutate the vault.
 */
module RevocationDelivery {
  import opened Prelude
  import opened EvidenceVault
  import opened VaultHistory

  datatype Seen = Missing | Succeeded | Reverted

  /** The transport's behaviour for one job, None being an exception, and what others do to the vault at each await. */
  datatype Answers = Answers(
    prepared: Option<Signed>, targetFits: bool, first: Option<Seen>, writable: bool, waited: Option<Seen>, at: int,
    whileSigning: seq<Op>, whileAsking: seq<Op>, whileSending: seq<Op>)

  /** What happened, in order; sent bytes come with those stored for the job at that moment. */
  datatype Event = Signing(job: JobId) | Sent(job: JobId, bytes: Signed, stored: Option<Signed>)
      | Settled(job: JobId, success: bool) | Unresolved(job: JobId)

  datatype Ending = WasConfirmed | WasReverted | StillPending | Raised

  /** Outbox deliveries belong to the one runner that holds the lease. */
  predicate Bystander(op: Op) {
    !op.PrepareRevocation? && !op.FinishRevocation? && !op.FailRevocation?
  }

  predicate Bystanders(ops: seq<Op>) {
    forall op :: op in ops ==> Bystander(op)
  }

  predicate Undisturbed(a: Answers) {
    Bystanders(a.whileSigning) && Bystanders(a.whileAsking) && Bystanders(a.whileSending)
  }

  /** The vault still holds these signed bytes for the job. */
  predicate Retains(v: VaultData, j: JobId, t: Signed) {
    j in v.jobs && v.jobs[j].transaction.Some? && v.jobs[j].transaction.value.hash == t.hash
  }

  lemma RetainsStep(v: VaultData, op: Op, j: JobId, t: Signed)
    requires Inv(v) && Retains(v, j, t) && !(op.FailRevocation? && op.job == j)
    ensures Retains(Apply(v, op).0, j, t)
  {
    JobFate(v, op, j);
  }

  /** Every signed transaction is kept, except perhaps those of the given jobs. */
  ghost predicate KeepsBytes(v: VaultData, t: VaultData, except: set<JobId>) {
    forall j, b :: j !in except && Retains(v, j, b) ==> Retains(t, j, b)
  }

  method Act(vault: Vault, op: Op, ghost from: VaultData, ghost before: seq<Op>)
      returns (out: Outcome, ghost ops: seq<Op>)
    requires Inv(vault.data) && vault.data == Run(from, before)
    modifies vault
    ensures Inv(vault.data) && vault.data == Run(from, ops) && ops == before + [op]
    ensures (vault.data, out) == Apply(old(vault.data), op)
    ensures op.FailRevocation? ==> KeepsBytes(old(vault.data), vault.data, {op.job})
    ensures !op.FailRevocation? ==> KeepsBytes(old(vault.data), vault.data, {})
  {
    StepKeepsInv(vault.data, op);
    RunAppends(from, before, op);
    ghost var v := vault.data;
    out := vault.Mutate(op);
    ops := before + [op];
    forall j, b | !(op.FailRevocation? && op.job == j) && Retains(v, j, b) ensures Retains(vault.data, j, b) {
      RetainsStep(v, op, j, b);
    }
  }

  method Interleave(vault: Vault, elsewhere: seq<Op>, ghost from: VaultData, ghost before: seq<Op>)
      returns (ghost ops: seq<Op>)
    requires Inv(vault.data) && vault.data == Run(from, before) && Bystanders(elsewhere)
    modifies vault
    ensures Inv(vault.data) && vault.data == Run(from, ops)
    ensures KeepsBytes(old(vault.data), vault.data, {})
  {
    ops := before;
    for k := 0 to |elsewhere|
      invariant Inv(vault.data) && vault.data == Run(from, ops)
      invariant KeepsBytes(old(vault.data), vault.data, {})
    {
      var out;
      assert Bystander(elsewhere[k]);
      out, ops := Act(vault, elsewhere[k], from, ops);
    }
  }

  /** Bytes leave only when the vault holds them. */
  predicate SentAsStored(log: seq<Event>) {
    forall e :: e in log && e.Sent? ==> e.stored.Some? && e.stored.value.hash == e.bytes.hash
  }

  predicate AllOf(log: seq<Event>, j: JobId) {
    forall e :: e in log ==> e.job == j && !e.Unresolved? && !e.Settled?
  }

  /** Signs a job that has no bytes yet and stores them; none when the transport or the vault refused. */
  method SignJob(vault: Vault, snapshot: Job, a: Answers, ghost from: VaultData, ghost before: seq<Op>)
    returns (t: Option<Signed>, ghost ops: seq<Op>)
    requires Inv(vault.data) && vault.data == Run(from, before) && Undisturbed(a)
    modifies vault
    ensures Inv(vault.data) && vault.data == Run(from, ops) && KeepsBytes(old(vault.data), vault.data, {})
    ensures t.Some? ==> Retains(vault.data, snapshot.id, t.value)
  {
    ops := Interleave(vault, a.whileSigning, from, before);
    if a.prepared.None? {
      return None, ops;
    }
    var out;
    ghost var v := vault.data;
    out, ops := Act(vault, PrepareRevocation(snapshot.id, a.prepared.value), from, ops);
    if out.Threw? {
      return None, ops;
    }
    PreparedIsStored(v, snapshot.id, a.prepared.value);
    return a.prepared, ops;
  }

  lemma PreparedIsStored(v: VaultData, j: JobId, t: Signed)
    requires !Apply(v, PrepareRevocation(j, t)).1.Threw?
    ensures Retains(Apply(v, PrepareRevocation(j, t)).0, j, t)
  {
  }

  lemma SettledState(v: VaultData, op: Op)
    requires (op.FinishRevocation? || op.FailRevocation?) && !Apply(v, op).1.Threw?
    ensures op.job in Apply(v, op).0.jobs && (Apply(v, op).0.jobs[op.job].state == Confirmed <==> op.FinishRevocation?)
  {
  }

  /** Asks for the receipt and broadcasts when there is none; none when the transport threw. */
  method Broadcast(vault: Vault, j: JobId, t: Signed, a: Answers, ghost from: VaultData, ghost before: seq<Op>)
    returns (receipt: Option<Seen>, log: seq<Event>, ghost ops: seq<Op>)
    requires Inv(vault.data) && vault.data == Run(from, before) && Undisturbed(a) && Retains(vault.data, j, t)
    modifies vault
    ensures Inv(vault.data) && vault.data == Run(from, ops) && KeepsBytes(old(vault.data), vault.data, {})
    ensures SentAsStored(log) && AllOf(log, j)
  {
    log, ops := [], before;
    if !a.targetFits || a.first.None? {
      return None, log, ops;
    }
    ops := Interleave(vault, a.whileAsking, from, ops);
    if a.first.value != Missing {
      return a.first, log, ops;
    }
    if !a.writable {
      return None, log, ops;
    }
    // A broadcast that fails may still have arrived; the receipt decides.
    assert Retains(vault.data, j, t);
    log := [Sent(j, t, vault.data.jobs[j].transaction)];
    ops := Interleave(vault, a.whileSending, from, ops);
    return a.waited, log, ops;
  }

  /** Records what the receipt says. */
  method Settle(vault: Vault, j: JobId, receipt: Seen, at: int, ghost from: VaultData, ghost before: seq<Op>)
    returns (end: Ending, ghost ops: seq<Op>)
    requires Inv(vault.data) && vault.data == Run(from, before)
    modifies vault
    ensures Inv(vault.data) && vault.data == Run(from, ops) && KeepsBytes(old(vault.data), vault.data, {j})
    ensures end != Raised ==>
              (end == WasConfirmed <==> receipt == Succeeded) && (end == WasReverted <==> receipt == Reverted)
    ensures end != Raised ==> j in vault.data.jobs && (vault.data.jobs[j].state == Confirmed <==> end == WasConfirmed)
  {
    var op := if receipt == Succeeded then FinishRevocation(j, at)
              else FailRevocation(j, if receipt == Reverted then "source transaction reverted"
                  else "source confirmation pending", receipt == Reverted);
    ghost var v := vault.data;
    var out;
    out, ops := Act(vault, op, from, before);
    if out.Threw? {
      return Raised, ops;
    }
    SettledState(v, op);
    end := match receipt case Succeeded => WasConfirmed case Reverted => WasReverted case Missing => StillPending;
  }

  /** The body of the loop up to its own exceptions; the log has no outcome yet. */
  method Attempt(vault: Vault, snapshot: Job, a: Answers, ghost from: VaultData, ghost before: seq<Op>)
    returns (end: Ending, log: seq<Event>, ghost ops: seq<Op>)
    requires Inv(vault.data) && vault.data == Run(from, before) && Undisturbed(a)
    requires snapshot.transaction.Some? ==> Retains(vault.data, snapshot.id, snapshot.transaction.value)
    modifies vault
    ensures Inv(vault.data) && vault.data == Run(from, ops) && KeepsBytes(old(vault.data), vault.data, {snapshot.id})
    ensures SentAsStored(log) && AllOf(log, snapshot.id)
    ensures end != Raised ==>
              && snapshot.id in vault.data.jobs
              && (vault.data.jobs[snapshot.id].state == Confirmed <==> end == WasConfirmed)
  {
    log, ops := [], before;
    var t := snapshot.transaction;
    if t.None? {
      log := [Signing(snapshot.id)];
      t, ops := SignJob(vault, snapshot, a, from, ops);
      if t.None? {
        return Raised, log, ops;
      }
    }
    var receipt, sent;
    receipt, sent, ops := Broadcast(vault, snapshot.id, t.value, a, from, ops);
    log := log + sent;
    if receipt.None? {
      return Raised, log, ops;
    }
    end, ops := Settle(vault, snapshot.id, receipt.value, a.at, from, ops);
  }

  predicate Distinct(order: seq<JobId>) {
    forall i, j :: 0 <= i < j < |order| ==> order[i] != order[j]
  }

  predicate Open(v: VaultData, job: Job) {
    job.id in v.jobs && job == v.jobs[job.id] && job.state != Confirmed
  }

  /** The open jobs, as they are when listed, in the order of the outbox. */
  function Listed(v: VaultData, order: seq<JobId>): seq<Job> {
    if order == [] then []
    else
      var id := order[|order| - 1];
      Listed(v, order[..|order| - 1]) + if id in v.jobs && v.jobs[id].state != Confirmed then [v.jobs[id]] else []
  }

  lemma {:induction false} ListedAre(v: VaultData, order: seq<JobId>)
    requires Inv(v) && Distinct(order)
    ensures forall job :: job in Listed(v, order) <==> job.id in order && Open(v, job)
    ensures forall i, j :: 0 <= i < j < |Listed(v, order)| ==> Listed(v, order)[i].id != Listed(v, order)[j].id
  {
    if order != [] {
      var n := |order| - 1;
      assert order == order[..n] + [order[n]];
      ListedAre(v, order[..n]);
      assert forall i :: 0 <= i < |Listed(v, order[..n])| ==> Listed(v, order[..n])[i] in Listed(v, order[..n]);
    }
  }

  method ListPending(vault: Vault, order: seq<JobId>) returns (jobs: seq<Job>)
    ensures jobs == Listed(vault.data, order)
  {
    jobs := [];
    for k := 0 to |order|
      invariant jobs == Listed(vault.data, order[..k])
    {
      assert order[..k + 1][..k] == order[..k];
      if order[k] in vault.data.jobs && vault.data.jobs[order[k]].state != Confirmed {
        jobs := jobs + [vault.data.jobs[order[k]]];
      }
    }
    assert order[..|order|] == order;
  }

  function Ids(jobs: seq<Job>): seq<JobId> {
    if jobs == [] then [] else Ids(jobs[..|jobs| - 1]) + [jobs[|jobs| - 1].id]
  }

  lemma {:induction false} IdsPrefix(jobs: seq<Job>, k: nat)
    requires k <= |jobs|
    ensures Ids(jobs[..k]) <= Ids(jobs)
  {
    if k < |jobs| {
      var before := jobs[..|jobs| - 1];
      assert before[..k] == jobs[..k];
      IdsPrefix(before, k);
    } else {
      assert jobs[..k] == jobs;
    }
  }

  /** The jobs that came to an outcome, in order. */
  function Outcomes(log: seq<Event>): seq<JobId> {
    if log == [] then []
    else
      var e := log[|log| - 1];
      Outcomes(log[..|log| - 1]) + if e.Settled? || e.Unresolved? then [e.job] else []
  }

  /** A signature and a broadcast are followed by more about the same job, up to its outcome. */
  predicate InTurn(log: seq<Event>) {
    forall i :: 0 <= i < |log| && (log[i].Signing? || log[i].Sent?) ==> i + 1 < |log| && log[i + 1].job == log[i].job
  }

  lemma {:induction false} NoOutcomes(log: seq<Event>, more: seq<Event>, j: JobId)
    requires AllOf(more, j)
    ensures Outcomes(log + more) == Outcomes(log)
  {
    if more == [] {
      assert log + more == log;
    } else {
      assert (log + more)[..|log + more| - 1] == log + more[..|more| - 1];
      NoOutcomes(log, more[..|more| - 1], j);
    }
  }

  function Count(log: seq<Event>, p: Event -> bool): nat {
    if log == [] then 0 else Count(log[..|log| - 1], p) + if p(log[|log| - 1]) then 1 else 0
  }

  lemma {:induction false} CountAppends(a: seq<Event>, b: seq<Event>, p: Event -> bool)
    ensures Count(a + b, p) == Count(a, p) + Count(b, p)
  {
    if b == [] {
      assert a + b == a;
    } else {
      assert (a + b)[..|a + b| - 1] == a + b[..|b| - 1];
      CountAppends(a, b[..|b| - 1], p);
    }
  }

  lemma {:induction false} CountNone(log: seq<Event>, p: Event -> bool)
    requires forall e :: e in log ==> !p(e)
    ensures Count(log, p) == 0
  {
    if log != [] {
      CountNone(log[..|log| - 1], p);
    }
  }

  predicate Succeeds(e: Event) {
    e.Settled? && e.success
  }

  predicate Fails(e: Event) {
    (e.Settled? && !e.success) || e.Unresolved?
  }

  /** One job's part of the log: what was attempted, then its outcome. */
  ghost predicate Episode(log: seq<Event>, j: JobId, end: Ending) {
    && log != [] && AllOf(log[..|log| - 1], j) && SentAsStored(log)
    && log[|log| - 1] == if end == WasConfirmed || end == WasReverted then Settled(j, end == WasConfirmed)
        else Unresolved(j)
  }

  lemma EpisodeCounts(log: seq<Event>, more: seq<Event>, j: JobId, end: Ending)
    requires Episode(more, j, end)
    ensures Count(log + more, Succeeds) == Count(log, Succeeds) + if end == WasConfirmed then 1 else 0
    ensures Count(log + more, Fails) == Count(log, Fails) + if end == WasConfirmed then 0 else 1
  {
    CountAppends(log, more, Succeeds);
    CountAppends(log, more, Fails);
    CountNone(more[..|more| - 1], Succeeds);
    CountNone(more[..|more| - 1], Fails);
  }

  lemma EpisodeOrder(log: seq<Event>, more: seq<Event>, j: JobId, end: Ending)
    requires Episode(more, j, end) && InTurn(log)
    ensures Outcomes(log + more) == Outcomes(log) + [j] && InTurn(log + more)
  {
    var n := |more| - 1;
    var all := log + more;
    assert all[..|all| - 1] == log + more[..n];
    NoOutcomes(log, more[..n], j);
    forall i | 0 <= i < |all| && (all[i].Signing? || all[i].Sent?)
      ensures i + 1 < |all| && all[i + 1].job == all[i].job
    {
      if i >= |log| {
        assert i - |log| < n;
        assert more[..n][i - |log|] in more[..n];
        if i + 1 - |log| < n {
          assert more[..n][i + 1 - |log|] in more[..n];
        }
      }
    }
  }

  /** Nothing happens after an outcome that is not known: no signature, no broadcast, no further job. */
  predicate StopsAtUnresolved(log: seq<Event>) {
    forall i :: 0 <= i < |log| - 1 ==> !log[i].Unresolved?
  }

  lemma EpisodeFits(log: seq<Event>, more: seq<Event>, j: JobId, end: Ending)
    requires Episode(more, j, end) && SentAsStored(log) && forall e :: e in log ==> !e.Unresolved?
    ensures SentAsStored(log + more) && StopsAtUnresolved(log + more)
    ensures (forall e :: e in log + more ==> !e.Unresolved?) <==> end == WasConfirmed || end == WasReverted
  {
    var all := log + more;
    assert all[|all| - 1] in all && more == more[..|more| - 1] + [more[|more| - 1]];
    forall i | 0 <= i < |all| - 1 ensures !all[i].Unresolved? {
      if i < |log| {
        assert all[i] in log;
      } else {
        assert all[i] == more[..|more| - 1][i - |log|];
        assert all[i] in more[..|more| - 1];
      }
    }
  }

  lemma EpisodeMade(log: seq<Event>, j: JobId, end: Ending)
    requires AllOf(log, j) && SentAsStored(log)
    ensures Episode(log + [if end == WasConfirmed || end == WasReverted then Settled(j, end == WasConfirmed)
        else Unresolved(j)], j, end)
  {
    var last := if end == WasConfirmed || end == WasReverted then Settled(j, end == WasConfirmed) else Unresolved(j);
    assert (log + [last])[..|log|] == log;
  }

  /** What the handler does: a note on the job, which may itself fail. */
  method NoteFailure(vault: Vault, j: JobId, ghost from: VaultData, ghost before: seq<Op>)
      returns (threw: bool, ghost ops: seq<Op>)
    requires Inv(vault.data) && vault.data == Run(from, before)
    modifies vault
    ensures Inv(vault.data) && vault.data == Run(from, ops) && KeepsBytes(old(vault.data), vault.data, {j})
  {
    var out;
    out, ops := Act(vault, FailRevocation(j, "transport or persistence failure; reconcile by stored transaction hash",
        false), from, before);
    threw := out.Threw?;
  }

  /** The loop body with its handler. */
  method DeliverOne(vault: Vault, snapshot: Job, a: Answers, ghost from: VaultData, ghost before: seq<Op>)
    returns (end: Ending, log: seq<Event>, threw: bool, ghost ops: seq<Op>)
    requires Inv(vault.data) && vault.data == Run(from, before) && Undisturbed(a)
    requires snapshot.transaction.Some? ==> Retains(vault.data, snapshot.id, snapshot.transaction.value)
    modifies vault
    ensures Inv(vault.data) && vault.data == Run(from, ops) && KeepsBytes(old(vault.data), vault.data, {snapshot.id})
    ensures Episode(log, snapshot.id, end) && (threw ==> end == Raised)
  {
    end, log, ops := Attempt(vault, snapshot, a, from, before);
    threw := false;
    if end == Raised {
      threw, ops := NoteFailure(vault, snapshot.id, from, ops);
    }
    EpisodeMade(log, snapshot.id, end);
    log := log + [if end == WasConfirmed || end == WasReverted then Settled(snapshot.id, end == WasConfirmed)
        else Unresolved(snapshot.id)];
  }

  lemma {:induction false} LoggedJobsComeToAnOutcome(log: seq<Event>, i: nat)
    requires InTurn(log) && i < |log|
    ensures log[i].job in Outcomes(log)
    decreases |log| - i
  {
    if log[i].Signing? || log[i].Sent? {
      LoggedJobsComeToAnOutcome(log, i + 1);
    } else {
      OutcomeIsThere(log, i);
    }
  }

  lemma {:induction false} OutcomeIsThere(log: seq<Event>, i: nat)
    requires i < |log| && (log[i].Settled? || log[i].Unresolved?)
    ensures log[i].job in Outcomes(log)
  {
    if i < |log| - 1 {
      OutcomeIsThere(log[..|log| - 1], i);
    }
  }

  lemma {:induction false} IdsAreOf(jobs: seq<Job>, id: JobId)
    requires id in Ids(jobs)
    ensures exists job :: job in jobs && job.id == id
  {
    var n := |jobs| - 1;
    if jobs[n].id == id {
      assert jobs[n] in jobs;
    } else {
      IdsAreOf(jobs[..n], id);
      var job :| job in jobs[..n] && job.id == id;
      assert job in jobs;
    }
  }

  /** What the log of a run shows: the open jobs in outbox order, up to the first outcome that is not known. */
  ghost predicate RunLog(log: seq<Event>, jobs: seq<Job>) {
    && StopsAtUnresolved(log) && SentAsStored(log) && InTurn(log)
    && Outcomes(log) <= Ids(jobs)
    && ((forall e :: e in log ==> !e.Unresolved?) ==> Outcomes(log) == Ids(jobs))
  }

  /** The first k jobs are settled. */
  ghost predicate Progress(log: seq<Event>, jobs: seq<Job>, k: nat, confirmed: nat, failed: nat)
    requires k <= |jobs|
  {
    && (forall e :: e in log ==> !e.Unresolved?) && SentAsStored(log) && InTurn(log) && Outcomes(log) == Ids(jobs[..k])
    && confirmed == Count(log, Succeeds) && failed == Count(log, Fails)
  }

  lemma EpisodeProgress(log: seq<Event>, more: seq<Event>, jobs: seq<Job>, k: nat, end: Ending, confirmed: nat,
                        failed: nat)
    requires k < |jobs| && Progress(log, jobs, k, confirmed, failed) && Episode(more, jobs[k].id, end)
    ensures end == WasConfirmed ==> Progress(log + more, jobs, k + 1, confirmed + 1, failed)
    ensures end == WasReverted ==> Progress(log + more, jobs, k + 1, confirmed, failed + 1)
    ensures end == StillPending || end == Raised ==>
              && RunLog(log + more, jobs)
              && confirmed == Count(log + more, Succeeds) && failed + 1 == Count(log + more, Fails)
  {
    EpisodeCounts(log, more, jobs[k].id, end);
    EpisodeFits(log, more, jobs[k].id, end);
    EpisodeOrder(log, more, jobs[k].id, end);
    IdsNext(jobs, k);
  }

  lemma IdsNext(jobs: seq<Job>, k: nat)
    requires k < |jobs|
    ensures Ids(jobs[..k + 1]) == Ids(jobs[..k]) + [jobs[k].id] <= Ids(jobs)
  {
    assert jobs[..k + 1][..k] == jobs[..k];
    IdsPrefix(jobs, k + 1);
  }

  lemma ProgressDone(log: seq<Event>, jobs: seq<Job>, confirmed: nat, failed: nat)
    requires Progress(log, jobs, |jobs|, confirmed, failed)
    ensures RunLog(log, jobs) && confirmed == Count(log, Succeeds) && failed == Count(log, Fails)
  {
    assert jobs[..|jobs|] == jobs;
    forall i | 0 <= i < |log| ensures !log[i].Unresolved? {
      assert log[i] in log;
    }
  }

  /** Every event of a run is about a job that was open when it started. */
  lemma OnlyListedJobs(v: VaultData, order: seq<JobId>, log: seq<Event>, i: nat)
    requires Inv(v) && Distinct(order) && RunLog(log, Listed(v, order)) && i < |log|
    ensures log[i].job in order && log[i].job in v.jobs && v.jobs[log[i].job].state != Confirmed
  {
    LoggedJobsComeToAnOutcome(log, i);
    IdsAreOf(Listed(v, order), log[i].job);
    ListedAre(v, order);
  }

  /**
   * A run over the outbox. It takes the open jobs in outbox order, none skipped, and stops for good at the first
   * outcome it cannot know; it sends only bytes the vault holds, counts what it settled, and is one more
   * stretch of the vault's history. threw reports that even the note about a failed job could not be written.
   */
  method DeliverRevocations(vault: Vault, order: seq<JobId>, answers: map<JobId, Answers>)
    returns (confirmed: nat, failed: nat, log: seq<Event>, threw: bool, ghost ops: seq<Op>)
    requires Inv(vault.data) && Distinct(order)
    requires forall j :: j in answers ==> Undisturbed(answers[j])
    modifies vault
    ensures RunLog(log, Listed(old(vault.data), order))
    ensures confirmed == Count(log, Succeeds) && (!threw ==> failed == Count(log, Fails))
    ensures Inv(vault.data) && vault.data == Run(old(vault.data), ops)
  {
    ghost var from := vault.data;
    confirmed, failed, log, threw, ops := 0, 0, [], false, [];
    var jobs := ListPending(vault, order);
    ListedAre(from, order);
    for k := 0 to |jobs|
      invariant Inv(vault.data) && vault.data == Run(from, ops)
      invariant !threw && Progress(log, jobs, k, confirmed, failed)
      invariant StillRetained(vault.data, jobs, k)
    {
      var end;
      end, confirmed, failed, log, threw, ops :=
        DeliverNext(vault, jobs, k, answers, confirmed, failed, log, from, ops);
      if end == StillPending || end == Raised {
        return;
      }
    }
    ProgressDone(log, jobs, confirmed, failed);
  }

  /** One round of the loop: the log goes on or the run is over. */
  method DeliverNext(vault: Vault, jobs: seq<Job>, k: nat, answers: map<JobId, Answers>, before: nat, missed: nat,
                     log: seq<Event>, ghost from: VaultData, ghost was: seq<Op>)
    returns (end: Ending, confirmed: nat, failed: nat, more: seq<Event>, threw: bool, ghost ops: seq<Op>)
    requires Inv(vault.data) && vault.data == Run(from, was) && StillRetained(vault.data, jobs, k)
    requires forall j :: j in answers ==> Undisturbed(answers[j])
    requires k < |jobs| && Progress(log, jobs, k, before, missed)
    requires forall i, j :: 0 <= i < j < |jobs| ==> jobs[i].id != jobs[j].id
    modifies vault
    ensures Inv(vault.data) && vault.data == Run(from, ops) && StillRetained(vault.data, jobs, k + 1)
    ensures end == WasConfirmed || end == WasReverted ==> !threw && Progress(more, jobs, k + 1, confirmed, failed)
    ensures end == StillPending || end == Raised ==>
              && RunLog(more, jobs)
              && confirmed == Count(more, Succeeds) && (!threw ==> failed == Count(more, Fails))
  {
    var a := if jobs[k].id in answers then answers[jobs[k].id]
             else Answers(None, false, None, false, None, 0, [], [], []);
    var episode;
    ghost var v := vault.data;
    end, episode, threw, ops := DeliverOne(vault, jobs[k], a, from, was);
    RetainedNext(v, vault.data, jobs, k);
    EpisodeProgress(log, episode, jobs, k, end, before, missed);
    more, confirmed, failed := log + episode, before, missed;
    if end == WasConfirmed {
      confirmed := confirmed + 1;
    } else if !threw {
      failed := failed + 1;
    }
  }

  /** The jobs not reached yet keep the bytes they were listed with. */
  ghost predicate StillRetained(v: VaultData, jobs: seq<Job>, k: nat) {
    forall i :: k <= i < |jobs| && jobs[i].transaction.Some? ==> Retains(v, jobs[i].id, jobs[i].transaction.value)
  }

  lemma RetainedNext(v: VaultData, t: VaultData, jobs: seq<Job>, k: nat)
    requires k < |jobs| && StillRetained(v, jobs, k) && KeepsBytes(v, t, {jobs[k].id})
    requires forall i, j :: 0 <= i < j < |jobs| ==> jobs[i].id != jobs[j].id
    ensures StillRetained(t, jobs, k + 1)
  {
  }
}
