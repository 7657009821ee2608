/**
 * The vault file between its writers (pipeline/vault.ts, lines 768-820, and pipeline/vault-atomic.ts): any number
 * of instances, each stopped between taking the lock, loading and operating, writing the file and giving the lock
 * back, with failed and unacknowledged writes, deaths of processes and an operator who clears a dead lock.
 */
module VaultFile {
  import opened Prelude
  import opened EvidenceVault
  import VaultHistory

  type Writer = nat

  datatype Stage =
    | Idle
    /** Holds the lock for this mutation. */
    | Locking(op: Op)
    /** Loaded the file and operated on it in memory; not written yet. */
    | Operated(op: Op, data: VaultData, out: Outcome)
    /** The write is acknowledged, or there was none because the operation threw. */
    | Releasing(op: Op, out: Outcome)
    /** After an unconfirmed write the instance answers nothing but an error. */
    | Closed
    | Dead

  datatype Write = Written | NotWritten | Unsynced

  datatype Action =
    | Start(writer: Writer, op: Op)
    | LockUnwritten(writer: Writer)
    | Load(writer: Writer)
    | Flush(writer: Writer, write: Write)
    | Release(writer: Writer, ok: bool)
    | Die(writer: Writer)
    /** The operator removes a lock whose owner is known to be gone. */
    | Clear

  /** An answer a caller got: the mutation, its outcome, and how many writes the file had taken. */
  datatype Answer = Answer(op: Op, out: Outcome, writes: nat)

  datatype Files = Files(
    file: VaultData, locked: bool, stages: map<Writer, Stage>,
    /** The mutations written to the file, in order, and the answers given. */
    log: seq<Op>, answers: seq<Answer>)

  function Initial(): Files {
    Files(VaultHistory.Empty(), false, map[], [], [])
  }

  function StageOf(s: Files, w: Writer): Stage {
    if w in s.stages then s.stages[w] else Idle
  }

  function To(s: Files, w: Writer, stage: Stage): Files {
    s.(stages := s.stages[w := stage])
  }

  predicate Holding(stage: Stage) {
    stage.Locking? || stage.Operated? || stage.Releasing?
  }

  predicate Held(s: Files) {
    exists w :: w in s.stages && Holding(s.stages[w])
  }

  function Store(s: Files, op: Op, data: VaultData): Files {
    s.(file := data, log := s.log + [op])
  }

  /** An action that does not fit the stage of its writer changes nothing. */
  function Step(s: Files, a: Action): Files {
    match a
    case Start(w, op) => if StageOf(s, w).Idle? && !s.locked then To(s, w, Locking(op)).(locked := true) else s
    case LockUnwritten(w) => if StageOf(s, w).Locking? then To(s, w, Closed) else s
    case Load(w) => if StageOf(s, w).Locking? then To(s, w, OperatedOn(s.file, StageOf(s, w).op)) else s
    case Flush(w, write) => if StageOf(s, w).Operated? then Flushed(s, w, StageOf(s, w), write) else s
    case Release(w, ok) => if StageOf(s, w).Releasing? then Released(s, w, StageOf(s, w), ok) else s
    case Die(w) => To(s, w, Dead)
    case Clear => if Held(s) then s else s.(locked := false)
  }

  /** An operation that throws is not written. */
  function OperatedOn(file: VaultData, op: Op): Stage {
    var (data, out) := Apply(file, op);
    if out.Threw? then Releasing(op, out) else Operated(op, data, out)
  }

  function Flushed(s: Files, w: Writer, stage: Stage, write: Write): Files
    requires stage.Operated?
  {
    match write
    case Written => To(Store(s, stage.op, stage.data), w, Releasing(stage.op, stage.out))
    case NotWritten => To(s, w, Closed)
    case Unsynced => To(Store(s, stage.op, stage.data), w, Closed)
  }

  /** A lock that cannot be given back stays, and the caller gets an error for a mutation that may be on file. */
  function Released(s: Files, w: Writer, stage: Stage, ok: bool): Files
    requires stage.Releasing?
  {
    if ok then To(s, w, Idle).(locked := false, answers := s.answers + [Answer(stage.op, stage.out, |s.log|)])
    else To(s, w, Closed)
  }

  function Run(s: Files, actions: seq<Action>): Files {
    if actions == [] then s else Step(Run(s, actions[..|actions| - 1]), actions[|actions| - 1])
  }

  // ---------- The invariant ----------

  function FileAt(log: seq<Op>, n: nat): VaultData
    requires n <= |log|
  {
    VaultHistory.Run(VaultHistory.Empty(), log[..n])
  }

  /** What a writer in the middle of a mutation knows of the file. */
  ghost predicate StageOk(s: Files, stage: Stage) {
    match stage
    case Operated(op, data, out) => (data, out) == Apply(s.file, op) && !out.Threw?
    case Releasing(op, out) => AnswerOk(s.log, Answer(op, out, |s.log|))
    case _ => true
  }

  /** The outcome is the one the mutation has at its place in the log; one that threw is not in the log. */
  ghost predicate AnswerOk(log: seq<Op>, a: Answer) {
    && a.writes <= |log|
    && if a.out.Threw? then Apply(FileAt(log, a.writes), a.op) == (FileAt(log, a.writes), a.out)
       else a.writes > 0 && log[a.writes - 1] == a.op && Apply(FileAt(log, a.writes - 1), a.op).1 == a.out
  }

  ghost predicate Inv(s: Files) {
    && s.file == FileAt(s.log, |s.log|)
    && (forall w :: w in s.stages && Holding(s.stages[w]) ==> s.locked && StageOk(s, s.stages[w]))
    && (forall v, w :: v in s.stages && w in s.stages && Holding(s.stages[v]) && Holding(s.stages[w]) ==> v == w)
    && (forall i :: 0 <= i < |s.answers| ==> AnswerOk(s.log, s.answers[i]))
    && (forall k: nat :: k < |s.log| ==> Lands(s.log, k))
  }

  /** The mutation at this place of the log did not throw there. */
  ghost predicate Lands(log: seq<Op>, k: nat)
    requires k < |log|
  {
    !Apply(FileAt(log, k), log[k]).1.Threw?
  }

  lemma AnswerStays(log: seq<Op>, op: Op, a: Answer)
    requires AnswerOk(log, a)
    ensures AnswerOk(log + [op], a)
  {
    assert (log + [op])[..a.writes] == log[..a.writes];
    if a.writes > 0 {
      assert (log + [op])[..a.writes - 1] == log[..a.writes - 1];
    }
  }

  /** The one holder writes what the operation made of the file it loaded. */
  lemma StoreKeeps(s: Files, w: Writer, op: Op, data: VaultData, out: Outcome)
    requires Inv(s) && StageOf(s, w) == Operated(op, data, out)
    ensures var t := Store(s, op, data);
            && t.file == FileAt(t.log, |t.log|) && AnswerOk(t.log, Answer(op, out, |t.log|))
            && (forall i :: 0 <= i < |s.answers| ==> AnswerOk(t.log, s.answers[i]))
            && (forall k: nat :: k < |t.log| ==> Lands(t.log, k))
  {
    var log := s.log + [op];
    assert s.log[..|s.log|] == s.log && log[..|log|] == log && log[..|s.log|] == s.log;
    VaultHistory.RunAppends(VaultHistory.Empty(), s.log, op);
    forall i | 0 <= i < |s.answers| ensures AnswerOk(log, s.answers[i]) {
      AnswerStays(s.log, op, s.answers[i]);
    }
    forall k: nat | k < |log| ensures Lands(log, k) {
      assert log[..k] == s.log[..k];
      assert k < |s.log| ==> Lands(s.log, k);
    }
  }

  lemma FlushKeeps(s: Files, w: Writer, write: Write)
    requires Inv(s) && StageOf(s, w).Operated?
    ensures Inv(Flushed(s, w, StageOf(s, w), write))
  {
    var stage := StageOf(s, w);
    StoreKeeps(s, w, stage.op, stage.data, stage.out);
  }

  lemma LoadKeeps(s: Files, w: Writer)
    requires Inv(s) && StageOf(s, w).Locking?
    ensures Inv(To(s, w, OperatedOn(s.file, StageOf(s, w).op)))
  {
    assert s.log[..|s.log|] == s.log;
  }

  lemma StepKeepsInv(s: Files, a: Action)
    requires Inv(s)
    ensures Inv(Step(s, a))
  {
    match a {
      case Flush(w, write) => if StageOf(s, w).Operated? { FlushKeeps(s, w, write); }
      case Load(w) => if StageOf(s, w).Locking? { LoadKeeps(s, w); }
      case _ =>
    }
  }

  lemma {:induction false} RunKeepsInv(actions: seq<Action>)
    ensures Inv(Run(Initial(), actions))
  {
    if actions != [] {
      RunKeepsInv(actions[..|actions| - 1]);
      StepKeepsInv(Run(Initial(), actions[..|actions| - 1]), actions[|actions| - 1]);
    }
  }

  // ---------- What callers and the file can rely on ----------

  /** Whatever interleaves and fails, the file is the result of one sequence of whole mutations. */
  lemma FileIsAHistory(actions: seq<Action>)
    ensures var s := Run(Initial(), actions); s.file == VaultHistory.Run(VaultHistory.Empty(), s.log)
    ensures EvidenceVault.Inv(Run(Initial(), actions).file)
  {
    RunKeepsInv(actions);
    var s := Run(Initial(), actions);
    assert s.log[..|s.log|] == s.log;
    VaultHistory.RunKeepsInv(s.log, |s.log|);
  }

  lemma {:induction false} EachWriteIsARevision(log: seq<Op>, n: nat)
    requires n <= |log| && forall k: nat :: k < n ==> Lands(log, k)
    ensures FileAt(log, n).revision == n
  {
    if n > 0 {
      EachWriteIsARevision(log, n - 1);
      assert log[..n][..n - 1] == log[..n - 1] && Lands(log, n - 1);
    }
  }

  /** No write is lost or overwritten by a stale instance: the file's revision counts every write it ever took. */
  lemma RevisionCountsWrites(actions: seq<Action>)
    ensures Run(Initial(), actions).file.revision == |Run(Initial(), actions).log|
  {
    RunKeepsInv(actions);
    var s := Run(Initial(), actions);
    EachWriteIsARevision(s.log, |s.log|);
  }

  // ---------- Answers ----------

  /** Answers come in the order of the writes, and a writer about to answer a write has the latest. */
  ghost predicate InOrder(s: Files) {
    && (forall i, j :: 0 <= i < j < |s.answers| ==>
          s.answers[i].writes <= s.answers[j].writes
          && (!s.answers[j].out.Threw? ==> s.answers[i].writes < s.answers[j].writes))
    && (forall w, i :: w in s.stages && s.stages[w].Releasing? && !s.stages[w].out.Threw? && 0 <= i < |s.answers| ==>
          s.answers[i].writes < |s.log|)
  }

  lemma AnswersWithin(s: Files)
    requires Inv(s)
    ensures forall i :: 0 <= i < |s.answers| ==> s.answers[i].writes <= |s.log|
  {
    forall i | 0 <= i < |s.answers| ensures s.answers[i].writes <= |s.log| {
      assert AnswerOk(s.log, s.answers[i]);
    }
  }

  lemma FlushKeepsOrder(s: Files, w: Writer, write: Write)
    requires Inv(s) && InOrder(s) && StageOf(s, w).Operated?
    ensures InOrder(Flushed(s, w, StageOf(s, w), write))
  {
    AnswersWithin(s);
  }

  lemma ReleaseKeepsOrder(s: Files, w: Writer, ok: bool)
    requires Inv(s) && InOrder(s) && StageOf(s, w).Releasing?
    ensures InOrder(Released(s, w, StageOf(s, w), ok))
  {
    AnswersWithin(s);
  }

  lemma StepKeepsOrder(s: Files, a: Action)
    requires Inv(s) && InOrder(s)
    ensures InOrder(Step(s, a))
  {
    match a {
      case Flush(w, write) => if StageOf(s, w).Operated? { FlushKeepsOrder(s, w, write); }
      case Release(w, ok) => if StageOf(s, w).Releasing? { ReleaseKeepsOrder(s, w, ok); }
      case _ =>
    }
  }

  lemma {:induction false} RunKeepsOrder(actions: seq<Action>)
    ensures InOrder(Run(Initial(), actions))
  {
    if actions != [] {
      var before := actions[..|actions| - 1];
      RunKeepsOrder(before);
      RunKeepsInv(before);
      StepKeepsOrder(Run(Initial(), before), actions[|actions| - 1]);
    }
  }

  /**
   * Every mutation that was answered without an error is on file, once and at its own place, with the outcome it
   * has there after all writes before it; answers to later writes come later.
   */
  lemma AnsweredIsOnFile(actions: seq<Action>, j: nat)
    requires j < |Run(Initial(), actions).answers| && !Run(Initial(), actions).answers[j].out.Threw?
    ensures var s := Run(Initial(), actions);
            var a := s.answers[j];
            && 0 < a.writes <= |s.log| && s.log[a.writes - 1] == a.op
            && Apply(FileAt(s.log, a.writes - 1), a.op).1 == a.out
            && forall i :: 0 <= i < j ==> s.answers[i].writes < a.writes
  {
    RunKeepsInv(actions);
    RunKeepsOrder(actions);
    var s := Run(Initial(), actions);
    assert AnswerOk(s.log, s.answers[j]);
  }

  // ---------- After an unconfirmed write ----------

  /** A lock nobody holds. */
  ghost predicate LeftLocked(s: Files) {
    s.locked && !Held(s)
  }

  /** The action ends a mutation without giving the lock back. */
  predicate Abandons(s: Files, a: Action) {
    match a
    case LockUnwritten(w) => StageOf(s, w).Locking?
    case Flush(w, write) => StageOf(s, w).Operated? && !write.Written?
    case Release(w, ok) => StageOf(s, w).Releasing? && !ok
    case Die(w) => Holding(StageOf(s, w))
    case _ => false
  }

  lemma AbandonedIsLeftLocked(s: Files, a: Action)
    requires Inv(s) && Abandons(s, a)
    ensures LeftLocked(Step(s, a))
  {
  }

  lemma LeftLockedStep(s: Files, a: Action)
    requires LeftLocked(s) && !a.Clear?
    ensures LeftLocked(Step(s, a)) && Step(s, a).file == s.file && Step(s, a).answers == s.answers
  {
    if a.Start? || a.Load? || a.Flush? || a.Release? || a.LockUnwritten? {
      assert !Holding(StageOf(s, a.writer));
    }
  }

  lemma RunAppends(s: Files, actions: seq<Action>, a: Action)
    ensures Run(s, actions + [a]) == Step(Run(s, actions), a)
  {
    assert (actions + [a])[..|actions|] == actions;
  }

  /** After an unconfirmed write or a death under the lock no instance writes or answers until the operator acts. */
  lemma {:induction false} NothingFollowsAnUnconfirmedWrite(actions: seq<Action>, a: Action, more: seq<Action>)
    requires Abandons(Run(Initial(), actions), a) && forall i :: 0 <= i < |more| ==> !more[i].Clear?
    ensures var s, t := Run(Initial(), actions + [a]), Run(Initial(), actions + [a] + more);
            LeftLocked(t) && t.file == s.file && t.answers == s.answers
  {
    if more == [] {
      RunKeepsInv(actions);
      RunAppends(Initial(), actions, a);
      AbandonedIsLeftLocked(Run(Initial(), actions), a);
      assert actions + [a] + more == actions + [a];
    } else {
      var n := |more| - 1;
      NothingFollowsAnUnconfirmedWrite(actions, a, more[..n]);
      assert actions + [a] + more == actions + [a] + more[..n] + [more[n]];
      RunAppends(Initial(), actions + [a] + more[..n], more[n]);
      LeftLockedStep(Run(Initial(), actions + [a] + more[..n]), more[n]);
    }
  }
}
