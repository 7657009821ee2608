/**
 * The recovery step over the publication journal (pipeline/epoch-publication-delivery.ts, lines 33-62) and
 * what holds over every history of journal calls, process restarts and broadcasts.
 */
module PublicationDelivery {
  import opened Prelude
  import opened PublicationJournal

  // ---------- Histories ----------

  datatype Event =
    | Called(op: Op)
    /** A recovery step of this entry starts; its place in the history names it. */
    | Began(id: Intent)
    | Sent(step: nat, id: Intent, tx: Tx)

  function Empty(): State {
    State([], false, false, [])
  }

  ghost function After(scope: Scope, h: seq<Event>): State {
    if h == [] then Empty()
    else
      match h[|h| - 1]
      case Called(op) => Apply(scope, After(scope, h[..|h| - 1]), op).0
      case _ => After(scope, h[..|h| - 1])
  }

  predicate Usable(s: State) {
    !s.closed && !s.poisoned
  }

  /** An open journal that holds these bytes for this entry. */
  ghost predicate MaySend(s: State, id: Intent, t: Tx) {
    Usable(s) && exists k :: 0 <= k < |s.entries| && s.entries[k].intent == id && s.entries[k].transaction == Some(t)
  }

  function ConfirmationOf(s: State, id: Intent): Option<Confirmation> {
    var k := Find(s.entries, id);
    if k == |s.entries| then None else s.entries[k].confirmation
  }

  /** From position b up to position k one step of this entry runs, in one process, begun before its confirmation. */
  ghost predicate StepFrom(scope: Scope, h: seq<Event>, b: nat, k: nat, id: Intent) {
    && b < k <= |h| && h[b] == Began(id)
    && Usable(After(scope, h[..b])) && ConfirmationOf(After(scope, h[..b]), id).None?
    && forall i :: b < i < k ==> h[i] != Called(Reopen)
  }

  /**
   * Bytes only leave within a step of an entry that was unconfirmed when it began, once a step, while the journal
   * holds them. Other calls and other steps of the process may come in between.
   */
  ghost predicate Allowed(scope: Scope, h: seq<Event>, k: nat)
    requires k < |h| && h[k].Sent?
  {
    && MaySend(After(scope, h[..k]), h[k].id, h[k].tx) && StepFrom(scope, h, h[k].step, k, h[k].id)
    && forall i :: 0 <= i < k && h[i].Sent? ==> h[i].step != h[k].step
  }

  ghost predicate Disciplined(scope: Scope, h: seq<Event>) {
    forall k: nat :: k < |h| && h[k].Sent? ==> Allowed(scope, h, k)
  }

  /** What one step broadcast, in order. */
  function Sends(h: seq<Event>, step: nat): seq<Tx> {
    if h == [] then []
    else
      var e := h[|h| - 1];
      Sends(h[..|h| - 1], step) + if e.Sent? && e.step == step then [e.tx] else []
  }

  lemma SendsAppends(h: seq<Event>, e: Event, step: nat)
    ensures Sends(h + [e], step) == Sends(h, step) + if e.Sent? && e.step == step then [e.tx] else []
  {
    assert (h + [e])[..|h|] == h;
  }

  lemma {:induction false} NoSends(h: seq<Event>, step: nat)
    requires forall k :: 0 <= k < |h| && h[k].Sent? ==> h[k].step != step
    ensures Sends(h, step) == []
  {
    if h != [] {
      NoSends(h[..|h| - 1], step);
    }
  }

  lemma AfterAppends(scope: Scope, h: seq<Event>, e: Event)
    ensures After(scope, h + [e]) == if e.Called? then Apply(scope, After(scope, h), e.op).0 else After(scope, h)
  {
    assert (h + [e])[..|h|] == h;
  }

  lemma StepFromLonger(scope: Scope, h: seq<Event>, e: Event, b: nat, k: nat, id: Intent)
    requires StepFrom(scope, h, b, k, id)
    ensures StepFrom(scope, h + [e], b, k, id)
  {
    assert (h + [e])[..b] == h[..b];
  }

  lemma AllowedLonger(scope: Scope, h: seq<Event>, e: Event, k: nat)
    requires k < |h| && h[k].Sent? && Allowed(scope, h, k)
    ensures Allowed(scope, h + [e], k)
  {
    assert (h + [e])[..k] == h[..k];
    StepFromLonger(scope, h, e, h[k].step, k, h[k].id);
  }

  /** This broadcast may come next. */
  ghost predicate MayCome(scope: Scope, h: seq<Event>, e: Event)
    requires e.Sent?
  {
    && MaySend(After(scope, h), e.id, e.tx) && StepFrom(scope, h, e.step, |h|, e.id)
    && forall i :: 0 <= i < |h| && h[i].Sent? ==> h[i].step != e.step
  }

  lemma DisciplinedAppends(scope: Scope, h: seq<Event>, e: Event)
    requires Disciplined(scope, h) && (e.Sent? ==> MayCome(scope, h, e))
    ensures Disciplined(scope, h + [e])
  {
    forall k: nat | k < |h + [e]| && (h + [e])[k].Sent? ensures Allowed(scope, h + [e], k) {
      if k < |h| {
        AllowedLonger(scope, h, e, k);
      } else {
        assert (h + [e])[..k] == h;
        StepFromLonger(scope, h, e, e.step, |h|, e.id);
      }
    }
  }

  lemma {:induction false} HistoryKeepsInv(scope: Scope, h: seq<Event>)
    ensures Inv(scope, After(scope, h))
  {
    if h != [] {
      HistoryKeepsInv(scope, h[..|h| - 1]);
      if h[|h| - 1].Called? {
        StepKeepsInv(scope, After(scope, h[..|h| - 1]), h[|h| - 1].op);
      }
    }
  }

  /** Intents, transactions, confirmations and abandonments on disk are written once: the file only ever grows. */
  lemma {:induction false} HistoryIsWriteOnce(scope: Scope, h: seq<Event>, k: nat)
    requires k <= |h|
    ensures Extends(After(scope, h[..k]).disk, After(scope, h).disk)
    decreases |h|
  {
    if k == |h| {
      assert h[..k] == h;
    } else {
      var before := h[..|h| - 1];
      assert before[..k] == h[..k];
      HistoryIsWriteOnce(scope, before, k);
      HistoryKeepsInv(scope, before);
      if h[|h| - 1].Called? {
        StepKeepsInv(scope, After(scope, before), h[|h| - 1].op);
        ExtendsIsTransitive(After(scope, h[..k]).disk, After(scope, before).disk, After(scope, h).disk);
      }
    }
  }

  /** Whatever happened, the file reads back: its entries pass every check, only the last can be unresolved. */
  lemma JournalReopens(scope: Scope, h: seq<Event>)
    ensures Apply(scope, After(scope, h), Reopen).1 == Done
    ensures forall k :: 0 <= k < |After(scope, h).disk| - 1 ==> !Unresolved(After(scope, h).disk[k])
    ensures NoncesDiffer(After(scope, h).disk)
  {
    HistoryKeepsInv(scope, h);
  }

  /** Position of an entry with these bytes on disk. */
  ghost predicate SignedOnDisk(s: State, k: nat, t: Tx) {
    k < |s.disk| && s.disk[k].transaction == Some(t)
  }

  lemma SentIsOnDisk(scope: Scope, h: seq<Event>, i: nat)
    requires Disciplined(scope, h) && i < |h| && h[i].Sent?
    ensures exists k :: SignedOnDisk(After(scope, h), k, h[i].tx)
  {
    var s := After(scope, h[..i]);
    assert Allowed(scope, h, i);
    HistoryKeepsInv(scope, h[..i]);
    var k: nat :| k < |s.entries| && s.entries[k].intent == h[i].id && s.entries[k].transaction == Some(h[i].tx);
    HistoryIsWriteOnce(scope, h, i);
    assert SignedOnDisk(After(scope, h), k, h[i].tx);
  }

  lemma NonceNamesEntry(s: State, k: nat, m: nat, t: Tx, u: Tx)
    requires NoncesDiffer(s.disk) && SignedOnDisk(s, k, t) && SignedOnDisk(s, m, u) && t.nonce == u.nonce
    ensures k == m && t == u
  {
  }

  /** No nonce is ever broadcast with two different byte strings. */
  lemma OneTransactionPerNonce(scope: Scope, h: seq<Event>, i: nat, j: nat)
    requires Disciplined(scope, h) && i < |h| && j < |h| && h[i].Sent? && h[j].Sent? && h[i].tx.nonce == h[j].tx.nonce
    ensures h[i].tx == h[j].tx
  {
    var s := After(scope, h);
    var t, u := h[i].tx, h[j].tx;
    SentIsOnDisk(scope, h, i);
    SentIsOnDisk(scope, h, j);
    JournalReopens(scope, h);
    var k: nat :| SignedOnDisk(s, k, t);
    var m: nat :| SignedOnDisk(s, m, u);
    NonceNamesEntry(s, k, m, t, u);
  }

  /** The file records a confirmation of the entry at this position. */
  ghost predicate ConfirmedOnDisk(s: State, k: nat) {
    k < |s.disk| && s.disk[k].confirmation.Some?
  }

  /** Only a confirming call of the entry writes its confirmation, and leaves the journal usable only if accepted. */
  lemma ConfirmStep(scope: Scope, s: State, op: Op, k: nat)
    requires Inv(scope, s) && !ConfirmedOnDisk(s, k) && ConfirmedOnDisk(Apply(scope, s, op).0, k)
    ensures op.Confirm? && op.id == Apply(scope, s, op).0.disk[k].intent
    ensures Usable(Apply(scope, s, op).0) ==> Apply(scope, s, op).1.Stored?
  {
  }

  /** A journal usable now has been so since it was opened. */
  lemma {:induction false} UsableBefore(scope: Scope, h: seq<Event>, k: nat)
    requires k <= |h| && Usable(After(scope, h)) && forall i :: k <= i < |h| ==> h[i] != Called(Reopen)
    ensures Usable(After(scope, h[..k]))
    decreases |h|
  {
    if k == |h| {
      assert h[..k] == h;
    } else {
      assert h[..|h| - 1][..k] == h[..k];
      UsableBefore(scope, h[..|h| - 1], k);
    }
  }

  /** The call at position c confirmed this entry, or found it confirmed alike. */
  ghost predicate Confirms(scope: Scope, h: seq<Event>, c: nat, id: Intent) {
    && c < |h| && h[c].Called? && h[c].op.Confirm? && h[c].op.id == id
    && Apply(scope, After(scope, h[..c]), h[c].op).1.Stored?
  }

  /** Between an unconfirmed and a confirmed state of one process somebody confirmed the entry. */
  lemma {:induction false} SomebodyConfirmed(scope: Scope, h: seq<Event>, b: nat, k: nat) returns (c: nat)
    requires b <= |h| && !ConfirmedOnDisk(After(scope, h[..b]), k) && ConfirmedOnDisk(After(scope, h), k)
    requires Usable(After(scope, h)) && forall i :: b <= i < |h| ==> h[i] != Called(Reopen)
    ensures b <= c < |h| && Confirms(scope, h, c, After(scope, h).disk[k].intent)
    decreases |h|
  {
    assert h[..|h|] == h;
    var n := |h| - 1;
    var before := h[..n];
    assert before[..b] == h[..b];
    HistoryKeepsInv(scope, before);
    if ConfirmedOnDisk(After(scope, before), k) {
      UsableBefore(scope, h, n);
      c := SomebodyConfirmed(scope, before, b, k);
      assert before[..c] == h[..c];
      if h[n].Called? {
        StepKeepsInv(scope, After(scope, before), h[n].op);
      }
    } else {
      ConfirmStep(scope, After(scope, before), h[n].op, k);
      c := n;
    }
  }

  /** An accepted confirmation is on file. */
  lemma ConfirmedIsOnFile(scope: Scope, s: State, op: Op)
    requires Inv(scope, s) && op.Confirm? && Apply(scope, s, op).1.Stored?
    ensures var t, k := Apply(scope, s, op).0, Find(s.entries, op.id);
            k < |t.disk| && t.disk[k].intent == op.id && t.disk[k].confirmation.Some?
  {
  }

  /** The entry a broadcast is about stands on file with its bytes. */
  lemma SentEntry(scope: Scope, h: seq<Event>, j: nat, m: nat)
    requires Disciplined(scope, h) && j < |h| && h[j].Sent?
    requires m < |After(scope, h[..j]).disk|
    ensures var e := After(scope, h[..j]).disk[m]; e.transaction == Some(h[j].tx) <==> e.intent == h[j].id
  {
    var s := After(scope, h[..j]);
    assert Allowed(scope, h, j);
    HistoryKeepsInv(scope, h[..j]);
    var k: nat :| k < |s.entries| && s.entries[k].intent == h[j].id && s.entries[k].transaction == Some(h[j].tx);
    assert SignedOnDisk(s, k, h[j].tx);
    if s.disk[m].transaction == Some(h[j].tx) {
      NonceNamesEntry(s, k, m, h[j].tx, h[j].tx);
    }
    assert s.disk[m].intent == h[j].id ==> m == k;
  }

  /** An entry on file when a step of it begins is unconfirmed there. */
  lemma BegunUnconfirmed(scope: Scope, h: seq<Event>, b: nat, k: nat, m: nat, id: Intent)
    requires StepFrom(scope, h, b, k, id)
    requires m < |After(scope, h[..b]).disk| && After(scope, h[..b]).disk[m].intent == id
    ensures !ConfirmedOnDisk(After(scope, h[..b]), m)
  {
    HistoryKeepsInv(scope, h[..b]);
    assert Find(After(scope, h[..b]).entries, id) == m;
  }

  /** The file records a confirmation of these bytes. */
  ghost predicate ConfirmedBytes(s: State, t: Tx) {
    exists m: nat :: SignedOnDisk(s, m, t) && ConfirmedOnDisk(s, m)
  }

  /** While the step that sends them waited, a call confirmed its entry. */
  ghost predicate ConfirmedMeanwhile(scope: Scope, h: seq<Event>, j: nat)
    requires j < |h| && h[j].Sent?
  {
    exists c: nat :: h[j].step < c < j && Confirms(scope, h, c, h[j].id)
  }

  lemma ResentMeansMeanwhile(scope: Scope, h: seq<Event>, j: nat)
    requires Disciplined(scope, h) && j < |h| && h[j].Sent? && ConfirmedBytes(After(scope, h[..j]), h[j].tx)
    ensures ConfirmedMeanwhile(scope, h, j)
  {
    assert Allowed(scope, h, j);
    var b, g := h[j].step, h[..j];
    var m: nat :| SignedOnDisk(After(scope, g), m, h[j].tx) && ConfirmedOnDisk(After(scope, g), m);
    SentEntry(scope, h, j, m);
    assert g[..b] == h[..b];
    HistoryIsWriteOnce(scope, g, b);
    if m < |After(scope, h[..b]).disk| {
      BegunUnconfirmed(scope, h, b, j, m, h[j].id);
    }
    assert g[..b + 1][..b] == g[..b] && After(scope, g[..b + 1]) == After(scope, g[..b]);
    var c := SomebodyConfirmed(scope, g, b + 1, m);
    assert g[..c] == h[..c];
    assert Confirms(scope, h, c, h[j].id);
  }

  lemma ConfirmationStays(scope: Scope, h: seq<Event>, c: nat, id: Intent) returns (m: nat)
    requires Confirms(scope, h, c, id)
    ensures m < |After(scope, h).disk| && After(scope, h).disk[m].intent == id && ConfirmedOnDisk(After(scope, h), m)
  {
    assert h[..c + 1][..c] == h[..c] && h[..c + 1][c] == h[c];
    HistoryKeepsInv(scope, h[..c]);
    ConfirmedIsOnFile(scope, After(scope, h[..c]), h[c].op);
    HistoryIsWriteOnce(scope, h, c + 1);
    m := Find(After(scope, h[..c]).entries, id);
  }

  lemma MeanwhileMeansResent(scope: Scope, h: seq<Event>, j: nat)
    requires Disciplined(scope, h) && j < |h| && h[j].Sent? && ConfirmedMeanwhile(scope, h, j)
    ensures ConfirmedBytes(After(scope, h[..j]), h[j].tx)
  {
    var c: nat :| h[j].step < c < j && Confirms(scope, h, c, h[j].id);
    assert h[..j][..c] == h[..c];
    var m := ConfirmationStays(scope, h[..j], c, h[j].id);
    SentEntry(scope, h, j, m);
    assert SignedOnDisk(After(scope, h[..j]), m, h[j].tx);
  }

  /** A broadcast is of bytes already confirmed on file exactly when its entry was confirmed while its step waited. */
  lemma ResentExactlyIfConfirmedMeanwhile(scope: Scope, h: seq<Event>, j: nat)
    requires Disciplined(scope, h) && j < |h| && h[j].Sent?
    ensures ConfirmedBytes(After(scope, h[..j]), h[j].tx) <==> ConfirmedMeanwhile(scope, h, j)
  {
    if ConfirmedBytes(After(scope, h[..j]), h[j].tx) {
      ResentMeansMeanwhile(scope, h, j);
    }
    if ConfirmedMeanwhile(scope, h, j) {
      MeanwhileMeansResent(scope, h, j);
    }
  }

  /** No bytes leave after the file recorded their confirmation. */
  ghost predicate NeverResends(scope: Scope, h: seq<Event>) {
    forall i: nat, j: nat :: i <= j < |h| && h[j].Sent? ==> !ConfirmedBytes(After(scope, h[..i]), h[j].tx)
  }

  lemma ConfirmedForGood(scope: Scope, h: seq<Event>, i: nat, j: nat, t: Tx)
    requires i <= j <= |h| && ConfirmedBytes(After(scope, h[..i]), t)
    ensures ConfirmedBytes(After(scope, h[..j]), t)
  {
    assert h[..j][..i] == h[..i];
    HistoryIsWriteOnce(scope, h[..j], i);
    var m: nat :| SignedOnDisk(After(scope, h[..i]), m, t) && ConfirmedOnDisk(After(scope, h[..i]), m);
    assert SignedOnDisk(After(scope, h[..j]), m, t) && ConfirmedOnDisk(After(scope, h[..j]), m);
  }

  /** Nothing confirmed ever leaves again exactly when no step that sends was confirmed while it waited. */
  lemma ConfirmedIsNeverResent(scope: Scope, h: seq<Event>)
    requires Disciplined(scope, h)
    ensures NeverResends(scope, h) <==> forall j: nat :: j < |h| && h[j].Sent? ==> !ConfirmedMeanwhile(scope, h, j)
  {
    forall j: nat | j < |h| && h[j].Sent?
      ensures ConfirmedBytes(After(scope, h[..j]), h[j].tx) <==> ConfirmedMeanwhile(scope, h, j)
    {
      ResentExactlyIfConfirmedMeanwhile(scope, h, j);
    }
    forall i: nat, j: nat | i <= j < |h| && h[j].Sent? && ConfirmedBytes(After(scope, h[..i]), h[j].tx)
      ensures ConfirmedMeanwhile(scope, h, j)
    {
      ConfirmedForGood(scope, h, i, j, h[j].tx);
    }
  }

  const PLAN := Intent(0, true, 1, 0, None, 0)
  const RECEIPT := Confirmation(7, 1, 0, 1, 1, 0)

  function PlanBytes(scope: Scope): Tx {
    Tx(0, scope.chainId, scope.publisher, Some(scope.source), 0, PLAN.calldata, true, RECEIPT.hash, 0)
  }

  function OnFile(e: Entry): State {
    State([e], false, false, [e])
  }

  lemma PlanCalls(scope: Scope)
    ensures Apply(scope, Empty(), Begin(PLAN, Written)).0 == OnFile(Entry(PLAN, None, None, None))
    ensures Apply(scope, OnFile(Entry(PLAN, None, None, None)), Prepare(PLAN, PlanBytes(scope), Written)).0
            == OnFile(Entry(PLAN, Some(PlanBytes(scope)), None, None))
    ensures Apply(scope, OnFile(Entry(PLAN, Some(PlanBytes(scope)), None, None)), Confirm(PLAN, RECEIPT, Written)).0
            == OnFile(Entry(PLAN, Some(PlanBytes(scope)), Some(RECEIPT), None))
  {
    assert [Entry(PLAN, None, None, None)][0 := Entry(PLAN, Some(PlanBytes(scope)), None, None)]
           == [Entry(PLAN, Some(PlanBytes(scope)), None, None)];
    var confirmed := Entry(PLAN, Some(PlanBytes(scope)), Some(RECEIPT), None);
    assert [Entry(PLAN, Some(PlanBytes(scope)), None, None)][0 := confirmed]
           == [Entry(PLAN, Some(PlanBytes(scope)), Some(RECEIPT), None)];
  }

  /** Such histories exist: a call confirms the entry while a step of it waits, and the confirmed bytes leave again. */
  lemma ConcurrentConfirmationResends(scope: Scope) returns (h: seq<Event>)
    ensures Disciplined(scope, h) && !NeverResends(scope, h)
  {
    PlanCalls(scope);
    var calls := [Called(Begin(PLAN, Written)), Called(Prepare(PLAN, PlanBytes(scope), Written)), Began(PLAN),
                  Called(Confirm(PLAN, RECEIPT, Written))];
    assert calls[..1] == [] + [calls[0]] && calls[..2] == calls[..1] + [calls[1]];
    assert calls[..3] == calls[..2] + [calls[2]] && calls == calls[..3] + [calls[3]];
    AfterAppends(scope, [], calls[0]);
    AfterAppends(scope, calls[..1], calls[1]);
    AfterAppends(scope, calls[..2], calls[2]);
    AfterAppends(scope, calls[..3], calls[3]);
    var s := After(scope, calls);
    assert s.entries[0].intent == PLAN && s.entries[0].transaction == Some(PlanBytes(scope));
    assert StepFrom(scope, calls, 2, 4, PLAN);
    h := calls + [Sent(2, PLAN, PlanBytes(scope))];
    DisciplinedAppends(scope, calls, Sent(2, PLAN, PlanBytes(scope)));
    assert h[..4] == calls && SignedOnDisk(s, 0, PlanBytes(scope)) && ConfirmedOnDisk(s, 0);
    assert ConfirmedBytes(After(scope, h[..4]), h[4].tx);
  }

  // ---------- The recovery step ----------

  datatype Observation = Absent | Confirming | Confirmed(confirmation: Confirmation)

  /** What the rest of the process does while the step waits, await by await: journal calls and other steps. */
  datatype Others = Others(
    atFirst: seq<Event>, atReady: seq<Event>, atPrepare: seq<Event>, atStillReady: seq<Event>, atSecond: seq<Event>,
    atBroadcast: seq<Event>)

  /** The transport's answers, in order; None or false is an exception. */
  datatype Answers = Answers(
    first: Option<Observation>, ready: bool, prepared: Option<Tx>, signedWrite: Write, stillReady: bool,
    second: Option<Observation>, last: Option<Observation>, confirmWrite: Write, others: Others)

  /** The file is not reopened under a running step: the process holds its lock. */
  predicate SameProcess(events: seq<Event>) {
    Called(Reopen) !in events
  }

  predicate AllSameProcess(o: Others) {
    SameProcess(o.atFirst) && SameProcess(o.atReady) && SameProcess(o.atPrepare) && SameProcess(o.atStillReady)
    && SameProcess(o.atSecond) && SameProcess(o.atBroadcast)
  }

  datatype Advanced = Observed(observation: Observation) | Failed

  /** The journal stands where this disciplined history leads. */
  ghost predicate Stands(s: State, scope: Scope, h: seq<Event>) {
    s == After(scope, h) && Disciplined(scope, h)
  }

  /** This step of the entry is running and has not sent. */
  ghost predicate Running(scope: Scope, h: seq<Event>, step: nat, id: Intent) {
    StepFrom(scope, h, step, |h|, id) && Sends(h, step) == []
  }

  lemma {:induction false} SendsNone(h: seq<Event>, step: nat)
    requires Sends(h, step) == []
    ensures forall k :: 0 <= k < |h| && h[k].Sent? ==> h[k].step != step
  {
    if h != [] {
      SendsNone(h[..|h| - 1], step);
    }
  }

  /** What the step knows of the entry is still so: signed bytes and confirmations stay. */
  ghost predicate Keeps(s: State, e: Entry) {
    exists k :: 0 <= k < |s.entries| && s.entries[k].intent == e.intent
      && (e.transaction.Some? ==> s.entries[k].transaction == e.transaction)
      && (e.confirmation.Some? ==> s.entries[k].confirmation == e.confirmation)
  }

  lemma StillKeeps(s: State, t: State, e: Entry)
    requires Keeps(s, e) && Extends(s.entries, t.entries)
    ensures Keeps(t, e)
  {
    var k :| 0 <= k < |s.entries| && s.entries[k].intent == e.intent
      && (e.transaction.Some? ==> s.entries[k].transaction == e.transaction)
      && (e.confirmation.Some? ==> s.entries[k].confirmation == e.confirmation);
    assert t.entries[k].intent == e.intent;
  }

  lemma StillRunning(scope: Scope, h: seq<Event>, e: Event, step: nat, id: Intent)
    requires Running(scope, h, step, id) && e != Called(Reopen) && !(e.Sent? && e.step == step)
    ensures Running(scope, h + [e], step, id)
  {
    SendsAppends(h, e, step);
    assert (h + [e])[..step] == h[..step];
  }

  method Act(journal: Journal, op: Op, ghost step: nat, ghost h: seq<Event>)
    returns (out: Outcome, ghost h': seq<Event>)
    requires Stands(journal.Now(), journal.scope, h)
    modifies journal
    ensures Stands(journal.Now(), journal.scope, h') && h' == h + [Called(op)] && Sends(h', step) == Sends(h, step)
    ensures (journal.Now(), out) == Apply(journal.scope, old(journal.Now()), op)
  {
    AfterAppends(journal.scope, h, Called(op));
    SendsAppends(h, Called(op), step);
    DisciplinedAppends(journal.scope, h, Called(op));
    out := journal.Do(op);
    h' := h + [Called(op)];
  }

  /** What a wait of the step, or a call of its own, leaves: history h became h'. */
  ghost predicate Continues(scope: Scope, s: State, step: nat, id: Intent, h: seq<Event>, h': seq<Event>) {
    && Stands(s, scope, h') && h <= h' && Sends(h', step) == Sends(h, step)
    && (Running(scope, h, step, id) ==> Running(scope, h', step, id))
  }

  /** Lets the rest of the process act during an await. A broadcast that no step may make now does not happen. */
  method Meanwhile(journal: Journal, events: seq<Event>, ghost e: Entry, ghost step: nat, ghost h: seq<Event>)
    returns (ghost h': seq<Event>)
    requires Stands(journal.Now(), journal.scope, h) && SameProcess(events) && Keeps(journal.Now(), e)
    modifies journal
    ensures Continues(journal.scope, journal.Now(), step, e.intent, h, h') && Keeps(journal.Now(), e)
  {
    h' := h;
    for k := 0 to |events|
      invariant Continues(journal.scope, journal.Now(), step, e.intent, h, h') && Keeps(journal.Now(), e)
    {
      assert events[k] in events;
      if events[k].Called? {
        h' := OtherCall(journal, events[k].op, e, step, h');
      } else {
        h' := OtherStep(journal.scope, journal.Now(), events[k], step, e.intent, h');
      }
    }
  }

  method OtherCall(journal: Journal, op: Op, ghost e: Entry, ghost step: nat, ghost h: seq<Event>)
    returns (ghost h': seq<Event>)
    requires Stands(journal.Now(), journal.scope, h) && op != Reopen && Keeps(journal.Now(), e)
    modifies journal
    ensures Continues(journal.scope, journal.Now(), step, e.intent, h, h') && Keeps(journal.Now(), e)
  {
    HistoryKeepsInv(journal.scope, h);
    CallGrows(journal.scope, journal.Now(), op);
    ghost var s := journal.Now();
    var out;
    out, h' := Act(journal, op, step, h);
    StillKeeps(s, journal.Now(), e);
    if Running(journal.scope, h, step, e.intent) {
      StillRunning(journal.scope, h, Called(op), step, e.intent);
    }
  }

  /** Another step begins or sends. */
  lemma OtherStep(scope: Scope, s: State, event: Event, step: nat, id: Intent, h: seq<Event>) returns (h': seq<Event>)
    requires Stands(s, scope, h) && !event.Called?
    ensures Continues(scope, s, step, id, h, h')
  {
    if event.Sent? && (event.step == step || !MayCome(scope, h, event)) {
      h' := h;
    } else {
      h' := h + [event];
      AfterAppends(scope, h, event);
      SendsAppends(h, event, step);
      DisciplinedAppends(scope, h, event);
      if Running(scope, h, step, id) {
        StillRunning(scope, h, event, step, id);
      }
    }
  }

  predicate SameBlock(a: Confirmation, b: Confirmation) {
    a.hash == b.hash && a.blockHash == b.blockHash && a.blockNumber == b.blockNumber && a.status == b.status
  }

  /** A confirmation of this intent on record names the block observed. */
  ghost predicate Recorded(s: State, id: Intent, c: Confirmation) {
    exists k :: 0 <= k < |s.entries| && s.entries[k].intent == id && s.entries[k].confirmation.Some?
      && SameBlock(c, s.entries[k].confirmation.value)
  }

  /** Checks an observation against the confirmation the step knows, or records the first one. */
  method Finish(journal: Journal, e: Entry, o: Option<Observation>, write: Write, ghost step: nat, ghost h: seq<Event>)
    returns (r: Advanced, ghost h': seq<Event>)
    requires Stands(journal.Now(), journal.scope, h) && Keeps(journal.Now(), e)
    modifies journal
    ensures Stands(journal.Now(), journal.scope, h') && h <= h' && Sends(h', step) == Sends(h, step)
    ensures r.Observed? ==> o == Some(r.observation) && (e.confirmation.Some? ==> r.observation.Confirmed?)
    ensures r.Observed? && r.observation.Confirmed? ==> Recorded(journal.Now(), e.intent, r.observation.confirmation)
  {
    h' := h;
    if o.None? {
      return Failed, h';
    }
    if e.confirmation.Some? {
      if !o.value.Confirmed? || !SameBlock(o.value.confirmation, e.confirmation.value) {
        return Failed, h';
      }
    } else if o.value.Confirmed? {
      var out;
      ghost var s := journal.Now();
      out, h' := Act(journal, Op.Confirm(e.intent, o.value.confirmation, write), step, h');
      if out.Threw? {
        return Failed, h';
      }
      ConfirmIsRecorded(journal.scope, s, e.intent, o.value.confirmation, write);
    }
    return Observed(o.value), h';
  }

  lemma ConfirmIsRecorded(scope: Scope, s: State, id: Intent, c: Confirmation, write: Write)
    requires !Apply(scope, s, Op.Confirm(id, c, write)).1.Threw?
    ensures Recorded(Apply(scope, s, Op.Confirm(id, c, write)).0, id, c)
  {
    var k := Find(s.entries, id);
    assert Apply(scope, s, Op.Confirm(id, c, write)).0.entries[k].confirmation == Some(c);
  }

  lemma PrepareKeeps(scope: Scope, s: State, id: Intent, tx: Tx, write: Write)
    requires Inv(scope, s) && !Apply(scope, s, Op.Prepare(id, tx, write)).1.Threw?
    ensures var (t, out) := Apply(scope, s, Op.Prepare(id, tx, write));
            out.Stored? && out.entry.intent == id && out.entry.transaction == Some(tx) && Keeps(t, out.entry)
  {
    var k := Find(s.entries, id);
    var (t, out) := Apply(scope, s, Op.Prepare(id, tx, write));
    assert t.entries[k] == out.entry;
  }

  /** Sign, unless the entry already is; the bytes are on file when this succeeds. */
  method SignOnce(journal: Journal, e: Entry, a: Answers, ghost step: nat, ghost h: seq<Event>)
    returns (signed: Option<Entry>, ghost h': seq<Event>)
    requires Stands(journal.Now(), journal.scope, h) && Running(journal.scope, h, step, e.intent)
    requires AllSameProcess(a.others) && Keeps(journal.Now(), e)
    modifies journal
    ensures Continues(journal.scope, journal.Now(), step, e.intent, h, h')
    ensures signed.Some? ==> signed.value.intent == e.intent && signed.value.transaction.Some?
    ensures signed.Some? ==> Keeps(journal.Now(), signed.value)
  {
    h' := h;
    if e.transaction.Some? {
      return Some(e), h';
    }
    h' := Meanwhile(journal, a.others.atPrepare, e, step, h');
    if a.prepared.None? {
      return None, h';
    }
    HistoryKeepsInv(journal.scope, h');
    StillRunning(journal.scope, h', Called(Op.Prepare(e.intent, a.prepared.value, a.signedWrite)), step, e.intent);
    var out;
    ghost var s := journal.Now();
    out, h' := Act(journal, Op.Prepare(e.intent, a.prepared.value, a.signedWrite), step, h');
    if out.Threw? {
      return None, h';
    }
    PrepareKeeps(journal.scope, s, e.intent, a.prepared.value, a.signedWrite);
    return Some(out.entry), h';
  }

  predicate Abandoned(s: State, id: Intent) {
    var k := Find(s.entries, id);
    k == |s.entries| || s.entries[k].abandonedAt.Some?
  }

  /** The mark of a step that begins on an open journal. */
  lemma BeginsRunning(scope: Scope, h: seq<Event>, id: Intent)
    requires Disciplined(scope, h)
    ensures After(scope, h + [Began(id)]) == After(scope, h) && Disciplined(scope, h + [Began(id)])
    ensures Sends(h, |h|) == Sends(h + [Began(id)], |h|) == []
    ensures Usable(After(scope, h)) && ConfirmationOf(After(scope, h), id).None? ==>
              Running(scope, h + [Began(id)], |h|, id)
  {
    assert forall k: nat :: k < |h| && h[k].Sent? ==> Allowed(scope, h, k);
    NoSends(h, |h|);
    AfterAppends(scope, h, Began(id));
    SendsAppends(h, Began(id), |h|);
    DisciplinedAppends(scope, h, Began(id));
    assert (h + [Began(id)])[..|h|] == h;
  }

  /**
   * One recovery step. Whatever the transport answers and whatever other calls and other steps of the process do at
   * each await, its calls and its broadcast extend a disciplined history. It broadcasts at most once, never for an
   * entry confirmed before it began; without a broadcast the observation it returns left nothing to send; and a
   * confirmation it returns is on record.
   */
  method AdvancePublication(journal: Journal, id: Intent, a: Answers, ghost h: seq<Event>)
    returns (r: Advanced, sent: Option<Tx>, ghost h': seq<Event>)
    requires Stands(journal.Now(), journal.scope, h) && AllSameProcess(a.others)
    modifies journal
    ensures Stands(journal.Now(), journal.scope, h') && h <= h'
    ensures Sends(h', |h|) == if sent.Some? then [sent.value] else []
    ensures ConfirmationOf(old(journal.Now()), id).Some? || Abandoned(old(journal.Now()), id) ==> sent.None?
    ensures r.Observed? && sent.None? ==>
              ConfirmationOf(old(journal.Now()), id).Some? || a.first != Some(Absent) || a.second != Some(Absent)
    ensures sent.Some? ==> a.first == Some(Absent) && a.second == Some(Absent) && a.ready && a.stillReady
    ensures r.Observed? && r.observation.Confirmed? ==> Recorded(journal.Now(), id, r.observation.confirmation)
  {
    ghost var step := |h|;
    BeginsRunning(journal.scope, h, id);
    sent, h' := None, h;
    var failure := journal.Check();
    if failure.Some? {
      return Failed, None, h';
    }
    var k := Find(journal.entries, id);
    if k == |journal.entries| || journal.entries[k].abandonedAt.Some? {
      return Failed, None, h';
    }
    var e := journal.entries[k];
    h' := h' + [Began(id)];
    assert Keeps(journal.Now(), e);
    r, sent, h' := Recover(journal, e, a, step, h');
  }

  /** The step once its entry is known. */
  method Recover(journal: Journal, e: Entry, a: Answers, ghost step: nat, ghost h: seq<Event>)
    returns (r: Advanced, sent: Option<Tx>, ghost h': seq<Event>)
    requires Stands(journal.Now(), journal.scope, h) && AllSameProcess(a.others) && Keeps(journal.Now(), e)
    requires Sends(h, step) == [] && (e.confirmation.None? ==> Running(journal.scope, h, step, e.intent))
    modifies journal
    ensures Stands(journal.Now(), journal.scope, h') && h <= h'
    ensures Sends(h', step) == if sent.Some? then [sent.value] else []
    ensures e.confirmation.Some? ==> sent.None?
    ensures r.Observed? && sent.None? ==> e.confirmation.Some? || a.first != Some(Absent) || a.second != Some(Absent)
    ensures sent.Some? ==> a.first == Some(Absent) && a.second == Some(Absent) && a.ready && a.stillReady
    ensures r.Observed? && r.observation.Confirmed? ==> Recorded(journal.Now(), e.intent, r.observation.confirmation)
  {
    sent := None;
    h' := Meanwhile(journal, a.others.atFirst, e, step, h);
    if e.confirmation.Some? || a.first != Some(Absent) {
      r, h' := Finish(journal, e, a.first, a.confirmWrite, step, h');
      return;
    }
    r, sent, h' := Proceed(journal, e, a, step, h');
  }

  /** Nothing was seen of the entry: sign it if need be, look again and send. */
  method Proceed(journal: Journal, e: Entry, a: Answers, ghost step: nat, ghost h: seq<Event>)
    returns (r: Advanced, sent: Option<Tx>, ghost h': seq<Event>)
    requires Stands(journal.Now(), journal.scope, h) && AllSameProcess(a.others) && Keeps(journal.Now(), e)
    requires Running(journal.scope, h, step, e.intent)
    modifies journal
    ensures Stands(journal.Now(), journal.scope, h') && h <= h'
    ensures Sends(h', step) == if sent.Some? then [sent.value] else []
    ensures r.Observed? && sent.None? ==> a.second != Some(Absent)
    ensures sent.Some? ==> a.second == Some(Absent) && a.ready && a.stillReady
    ensures r.Observed? && r.observation.Confirmed? ==> Recorded(journal.Now(), e.intent, r.observation.confirmation)
  {
    h' := Meanwhile(journal, a.others.atReady, e, step, h);
    var failure := journal.Check();
    if !a.ready || failure.Some? {
      return Failed, None, h';
    }
    var signed;
    signed, h' := SignOnce(journal, e, a, step, h');
    if signed.None? {
      return Failed, None, h';
    }
    r, sent, h' := SendOnce(journal, signed.value, a, step, h');
  }

  /** The part after the signature is on file. */
  method SendOnce(journal: Journal, e: Entry, a: Answers, ghost step: nat, ghost h: seq<Event>)
    returns (r: Advanced, sent: Option<Tx>, ghost h': seq<Event>)
    requires Stands(journal.Now(), journal.scope, h) && Running(journal.scope, h, step, e.intent)
    requires e.transaction.Some? && Keeps(journal.Now(), e) && AllSameProcess(a.others)
    modifies journal
    ensures Stands(journal.Now(), journal.scope, h') && h <= h'
    ensures Sends(h', step) == if sent.Some? then [sent.value] else []
    ensures sent.Some? ==> sent == e.transaction && a.second == Some(Absent) && a.stillReady
    ensures r.Observed? && sent.None? ==> a.second != Some(Absent)
    ensures r.Observed? && r.observation.Confirmed? ==> Recorded(journal.Now(), e.intent, r.observation.confirmation)
  {
    sent := None;
    h' := Meanwhile(journal, a.others.atStillReady, e, step, h);
    if !a.stillReady {
      return Failed, None, h';
    }
    h' := Meanwhile(journal, a.others.atSecond, e, step, h');
    if a.second != Some(Absent) {
      r, h' := Finish(journal, e, a.second, a.confirmWrite, step, h');
      return;
    }
    var failure := journal.Check();
    if failure.Some? {
      return Failed, None, h';
    }
    sent := e.transaction;
    r, h' := Broadcast(journal, e, a, step, h');
  }

  /** Acceptance of the broadcast is unknown; only these bytes are reconciled. */
  method Broadcast(journal: Journal, e: Entry, a: Answers, ghost step: nat, ghost h: seq<Event>)
    returns (r: Advanced, ghost h': seq<Event>)
    requires Stands(journal.Now(), journal.scope, h) && Running(journal.scope, h, step, e.intent)
    requires Usable(journal.Now()) && e.transaction.Some? && Keeps(journal.Now(), e) && AllSameProcess(a.others)
    modifies journal
    ensures Stands(journal.Now(), journal.scope, h') && h <= h' && Sends(h', step) == [e.transaction.value]
    ensures r.Observed? && r.observation.Confirmed? ==> Recorded(journal.Now(), e.intent, r.observation.confirmation)
  {
    h' := SendIsAllowed(journal.scope, h, step, e.intent, e.transaction.value);
    h' := Meanwhile(journal, a.others.atBroadcast, e, step, h');
    r, h' := Finish(journal, e, a.last, a.confirmWrite, step, h');
  }

  lemma SendIsAllowed(scope: Scope, h: seq<Event>, step: nat, id: Intent, tx: Tx) returns (h': seq<Event>)
    requires Disciplined(scope, h) && Running(scope, h, step, id) && MaySend(After(scope, h), id, tx)
    ensures Stands(After(scope, h), scope, h') && h <= h' && Sends(h', step) == [tx]
  {
    SendsNone(h, step);
    AfterAppends(scope, h, Sent(step, id, tx));
    SendsAppends(h, Sent(step, id, tx), step);
    DisciplinedAppends(scope, h, Sent(step, id, tx));
    h' := h + [Sent(step, id, tx)];
  }
}
