/**
 * The delivery step as the structured program it is (pipeline/issuance-delivery.ts, lines 35-150): one pass
 * over an acquired entry, with its branches, early returns, handler and saves. It is proved to move exactly
 * as the worker of IssuanceDelivery does on the same answers, so what holds of all interleaved workers
 * holds of this program.
 */
module IssuanceProgram {
  import opened Prelude
  import opened IssuanceJournal
  import opened IssuanceDelivery

  /** What the next await yields: a dependency's answer or a journal reply, lost if absent; and the clock after it. */
  datatype Input = Input(answer: Answer, reply: Option<Reply>, clock: nat)

  function Deliver(w: Worker, x: Input): Worker {
    if Asking(w.stage) then Respond(w, x.answer, x.clock)
    else if w.stage.Saving? then
      if x.reply.Some? && x.reply.value.Snapshot? then Acknowledged(w, x.reply.value, true, x.clock)
          else At(w, Releasing)
    else if w.stage.Recovering? then
      if x.reply.Some? then Recover(w, x.reply.value) else At(w, Releasing)
    else w
  }

  /** The worker after all these inputs. */
  function Feed(w: Worker, xs: seq<Input>): Worker {
    if xs == [] then w else Deliver(Feed(w, xs[..|xs| - 1]), xs[|xs| - 1])
  }

  /** The input a worker receives by an action of the protocol. */
  predicate Receives(g: World, a: Action, x: Input) {
    match a
    case Answered(owner, answer, clock) => owner in g.workers && Asking(g.workers[owner].stage) &&
        x.answer == answer && x.clock == clock
    case SaveServed(owner, time, canExpire, delivered, clock) =>
      && owner in g.workers && g.workers[owner].stage.Saving? && x.clock == clock
      && x.reply == if delivered then Some(Execute(g.journal, time,
          IssuanceJournal.Op.Save(g.workers[owner].stage.entry, owner, g.workers[owner].revision, canExpire)).1)
          else None
    case SaveLost(owner) => owner in g.workers && g.workers[owner].stage.Saving? && x.reply == None
    case Reread(owner, time, delivered) =>
      && owner in g.workers && g.workers[owner].stage == Recovering
      && x.reply == if delivered then Some(Execute(g.journal, time, Get(g.workers[owner].id)).1) else None
    case _ => false
  }

  /** In the protocol an action moves its worker exactly as the input it brings. */
  lemma DeliverIsStep(g: World, a: Action, x: Input)
    requires Receives(g, a, x) && g.workers[a.owner].owner == a.owner
    ensures a.owner in Step(g, a).workers && Step(g, a).workers[a.owner] == Deliver(g.workers[a.owner], x)
  {
    match a {
      case Answered(_, _, _) =>
      case SaveServed(owner, time, canExpire, delivered, clock) =>
        var w := g.workers[owner];
        var reply := Execute(g.journal, time, IssuanceJournal.Op.Save(w.stage.entry, owner, w.revision, canExpire)).1;
        assert reply.Snapshot? ==> Acknowledged(w, reply, false, clock) == At(w, Releasing);
      case SaveLost(_) =>
      case Reread(_, _, _) =>
    }
  }

  /** How a part of the program ends: it goes on, returned or failed for good, raised, or the process died waiting. */
  datatype Flow = Go | Finished | Raised | Dead

  class Pass {
    const start: Worker
    const inputs: seq<Input>
    var entry: Entry
    var revision: nat
    var reserved: bool
    var clock: nat
    var used: nat
    ghost var machine: Worker

    constructor (w: Worker, inputs: seq<Input>, clock: nat)
      ensures start == w && this.inputs == inputs && this.clock == clock && used == 0 && machine == w && Linked()
    {
      this.start, this.inputs, this.clock, used := w, inputs, clock, 0;
      entry, revision, reserved, machine := w.seen, w.revision, w.reservedThisPass, w;
      new;
      assert inputs[..0] == [];
    }

    /** The program's variables are the worker's, and the worker has seen the inputs used so far. */
    ghost predicate Linked()
      reads this
    {
      && used <= |inputs| && machine == Feed(start, inputs[..used])
      && machine.seen == entry && machine.revision == revision && machine.reservedThisPass == reserved
      && machine.id == start.id && machine.owner == start.owner
      && machine.retryFailed == start.retryFailed && machine.budgeted == start.budgeted
    }

    /** Where the worker is when a part of the program has ended this way. */
    ghost predicate Ended(flow: Flow)
      reads this
    {
      match flow
      case Go => true
      case Finished => machine.stage == Releasing
      case Raised => machine.stage == Recovering
      case Dead => used == |inputs| && machine.stage != Releasing
    }

    /** Waits for the next input. */
    method Await() returns (x: Option<Input>)
      requires Linked()
      modifies this`used, this`clock, this`machine
      ensures x.None? ==> used == |inputs| && Linked() && machine == old(machine) && clock == old(clock)
      ensures x.Some? ==> used == old(used) + 1 && machine == Deliver(old(machine), x.value) && clock == x.value.clock
      ensures used <= |inputs| && machine == Feed(start, inputs[..used])
    {
      if used == |inputs| {
        return None;
      }
      x := Some(inputs[used]);
      assert inputs[..used + 1][..used] == inputs[..used];
      machine := Deliver(machine, inputs[used]);
      clock := inputs[used].clock;
      used := used + 1;
    }

    /** Awaits a dependency whose exceptions leave the program text here. */
    method Ask(reserving: bool) returns (a: Answer, flow: Flow)
      requires Linked() && Asking(machine.stage) && machine.stage != Sending &&
          (reserving <==> machine.stage.ReservingNew?)
      modifies this`used, this`clock, this`machine, this`reserved
      ensures Linked() && Ended(flow)
      ensures flow == Go ==> machine == Respond(old(machine), a, clock) && !Threw(a)
    {
      a := Done;
      var x := Await();
      if x.None? {
        return a, Dead;
      }
      a := x.value.answer;
      if a.ThrownFatal? {
        return a, Finished;
      }
      if a.Thrown? {
        return a, Raised;
      }
      reserved := reserved || reserving;
      return a, Go;
    }

    /** Saves an entry; a refusal or a lost acknowledgement ends the pass. */
    method Save(e: Entry, ghost next: Next) returns (flow: Flow)
      requires Linked() && machine.stage == Saving(e, next)
      modifies this
      ensures Linked() && Ended(flow)
      ensures flow != Raised && (flow == Go ==> machine.stage == Resume(machine, next, clock))
    {
      var x := Await();
      if x.None? {
        return Dead;
      }
      if x.value.reply.None? || !x.value.reply.value.Snapshot? {
        return Finished;
      }
      revision, entry := x.value.reply.value.revision, x.value.reply.value.entry;
      ResumeLocal(machine, next, clock);
      return Go;
    }

    /** Saves an entry and returns. */
    method SaveAndReturn(e: Entry) returns (flow: Flow)
      requires Linked() && machine.stage == Saving(e, Stop)
      modifies this
      ensures Linked() && Ended(flow) && flow != Go && flow != Raised
    {
      flow := Save(e, Stop);
      flow := if flow == Go then Finished else flow;
    }

    method Approval() returns (flow: Flow)
      requires Linked() && machine.stage == Approve(machine)
      modifies this
      ensures Linked() && Ended(flow)
      ensures flow == Go ==> machine.stage == Sign(machine, clock)
    {
      if !entry.approved {
        flow := SaveAndReturn(entry.(phase := Failed, lastError := Some(NotApproved)));
        return;
      }
      var a;
      a, flow := Ask(false);
      if flow != Go {
        return;
      }
      if entry.phase == Failed {
        if !start.retryFailed || entry.lastError != Some(SourceReverted) {
          return Finished;
        }
        var e := entry;
        if e.transaction.Some? {
          e := e.(reverted := e.reverted + [e.transaction.value]);
        }
        e := e.(transaction := None, confirmation := None, phase := Prepared, lastError := None);
        // The save takes the signer's gate again; another request may hold it by now.
        flow := Save(e, AfterRetrySave);
      }
    }

    method Signature() returns (flow: Flow)
      requires Linked() && machine.stage == Sign(machine, clock)
      modifies this
      ensures Linked() && Ended(flow)
      ensures flow == Go ==> machine.stage == AskingReceipt
    {
      if entry.transaction.None? {
        flow := NewSignature();
        if flow != Go {
          return;
        }
      }
      if start.budgeted && !reserved {
        var a;
        a, flow := Ask(false);
        return;
      }
      return Go;
    }

    method NewSignature() returns (flow: Flow)
      requires Linked() && machine.stage == Sign(machine, clock) && entry.transaction.None?
      modifies this
      ensures Linked() && Ended(flow)
      ensures flow == Go ==> machine.stage == Reserve(machine)
    {
      if clock >= entry.prepareUntil || entry.expiry * 1000 <= clock {
        flow := SaveAndReturn(entry.(phase := Failed, lastError := Some(PreparationExpired)));
        return;
      }
      var a;
      a, flow := Ask(false);
      if flow != Go {
        return;
      }
      if a == Yes {
        flow := SaveAndReturn(entry.(phase := Failed, lastError := Some(AlreadyUsed)));
        return;
      }
      a, flow := Ask(false);
      if flow != Go {
        return;
      }
      flow := Sealed();
    }

    method Sealed() returns (flow: Flow)
      requires Linked() && machine.stage == Preparing
      modifies this
      ensures Linked() && Ended(flow)
      ensures flow == Go ==> machine.stage == Reserve(machine)
    {
      var a;
      a, flow := Ask(false);
      if flow != Go {
        return;
      }
      if !a.Bytes? || !a.matchesTarget {
        return Finished;
      }
      var signed := a.signed;
      if start.budgeted {
        a, flow := Ask(true);
        if flow != Go {
          return;
        }
      }
      // Without an acknowledgement of this save the signed bytes must not leave.
      flow := Save(entry.(transaction := Some(signed)), AfterSignedSave);
    }

    /** Broadcast, if no receipt is known; the receipt that decides. */
    method Outcome() returns (receipt: Receipt, flow: Flow)
      requires Linked() && machine.stage == AskingReceipt
      modifies this
      ensures Linked() && Ended(flow)
      ensures flow == Go ==> machine.stage == Resolve(machine, receipt)
    {
      receipt := Waiting;
      var a;
      a, flow := Ask(false);
      if flow != Go {
        return;
      }
      if !a.Observed? {
        return receipt, Raised;
      }
      if !a.receipt.Waiting? {
        return a.receipt, Go;
      }
      flow := Transmission();
      if flow != Go {
        return;
      }
      a, flow := Ask(false);
      if flow != Go {
        return;
      }
      if !a.Observed? {
        return receipt, Raised;
      }
      return a.receipt, Go;
    }

    method Transmission() returns (flow: Flow)
      requires Linked() && machine.stage == CheckingIntent
      modifies this
      ensures Linked() && Ended(flow)
      ensures flow == Go ==> machine.stage == AskingAgain
    {
      var a;
      a, flow := Ask(false);
      if flow != Go {
        return;
      }
      flow := Save(entry.(phase := Submitted, confirmation := None), AfterIntentSave);
      if flow != Go {
        return;
      }
      a, flow := Ask(false);
      if flow != Go {
        return;
      }
      flow := Broadcast();
    }

    method Broadcast() returns (flow: Flow)
      requires Linked() && machine.stage == Sending
      modifies this
      ensures Linked() && Ended(flow)
      ensures flow == Go ==> machine.stage == AskingAgain
    {
      // A broadcast that throws is an acknowledgement that may have been lost.
      var x := Await();
      if x.None? {
        return Dead;
      }
      var e := entry.(lastError := if Threw(x.value.answer) then Some(BroadcastUnconfirmed) else None);
      flow := Save(e, AfterSendSave);
    }

    method Completion(receipt: Receipt) returns (flow: Flow)
      requires Linked() && machine.stage == Resolve(machine, receipt)
      modifies this
      ensures Linked() && Ended(flow) && flow != Go
    {
      if receipt.Waiting? {
        return Finished;
      }
      var a;
      if start.budgeted {
        a, flow := Ask(false);
        if flow != Go {
          return;
        }
      }
      if receipt.Reverted? {
        flow := SaveAndReturn(entry.(phase := Failed, lastError := Some(SourceReverted),
            confirmation := Some(receipt.confirmation)));
        return;
      }
      flow := Confirmation(receipt.confirmation);
    }

    method Confirmation(confirmation: nat) returns (flow: Flow)
      requires Linked() && machine.stage == RecordingSource(confirmation)
      modifies this
      ensures Linked() && Ended(flow) && flow != Go
    {
      var a;
      a, flow := Ask(false);
      if flow != Go {
        return;
      }
      if entry.phase == Materialized {
        a, flow := Ask(false);
        return if flow == Go then Finished else flow;
      }
      flow := Save(entry.(phase := SourceConfirmed, confirmation := Some(confirmation), lastError := None),
          AfterConfirmedSave);
      if flow != Go {
        return;
      }
      flow := Materialization();
    }

    method Materialization() returns (flow: Flow)
      requires Linked() && machine.stage == AskingMaterialized
      modifies this
      ensures Linked() && Ended(flow) && flow != Go
    {
      var a;
      a, flow := Ask(false);
      if flow != Go {
        return;
      }
      if a != Yes {
        return Finished;
      }
      a, flow := Ask(false);
      if flow != Go {
        return;
      }
      flow := SaveAndReturn(entry.(phase := Materialized, lastError := None));
    }

    /** The catch block: a note on the entry, only if it is still the one this pass knows. */
    method Handler() returns (flow: Flow)
      requires Linked() && machine.stage == Recovering
      modifies this
      ensures Linked() && Ended(flow) && flow != Go && flow != Raised
    {
      var x := Await();
      if x.None? {
        return Dead;
      }
      if x.value.reply.None? {
        return Finished;
      }
      var r := x.value.reply.value;
      if r.Snapshot? && r.revision == revision && r.entry.phase != Failed {
        entry := r.entry;
        flow := SaveAndReturn(r.entry.(lastError := Some(DependencyUnavailable)));
        return;
      }
      return Finished;
    }

    /** The try block. */
    method Body() returns (flow: Flow)
      requires Linked() && machine.stage == Start(machine, clock)
      modifies this
      ensures Linked() && Ended(flow) && flow != Go
    {
      if entry.phase == Failed && (!start.retryFailed || entry.lastError != Some(SourceReverted)) {
        return Finished;
      }
      if entry.phase == Prepared && entry.transaction.None? && entry.approved && clock >= entry.prepareUntil {
        flow := SaveAndReturn(entry.(phase := Failed, lastError := Some(PreparationExpired)));
        return;
      }
      if !entry.evidenceStored {
        var a;
        a, flow := Ask(false);
        if flow != Go {
          return;
        }
        flow := Save(entry.(evidenceStored := true), AfterEvidenceSave);
        if flow != Go {
          return;
        }
      }
      flow := Approval();
      if flow != Go {
        return;
      }
      flow := Signature();
      if flow != Go {
        return;
      }
      var receipt;
      receipt, flow := Outcome();
      if flow != Go {
        return;
      }
      flow := Completion(receipt);
    }
  }

  /** Resuming does not look at where the worker was waiting. */
  lemma ResumeLocal(w: Worker, next: Next, clock: nat)
    ensures forall stage :: Resume(At(w, stage), next, clock) == Resume(w, next, clock)
  {
  }

  /**
   * One pass over an acquired entry. It ends at the release of the lease or where its process died, and in
   * either case it stands exactly where the worker of the protocol stands after the same inputs.
   */
  method AdvanceIssuance(w: Worker, inputs: seq<Input>, clock: nat)
      returns (entry: Entry, revision: nat, released: bool, used: nat)
    requires w.stage == Start(w, clock)
    ensures used <= |inputs|
    ensures var v := Feed(w, inputs[..used]);
            && v.seen == entry && v.revision == revision
            && (released <==> v.stage == Releasing)
            && (!released ==> used == |inputs|)
  {
    var pass := new Pass(w, inputs, clock);
    var flow := pass.Body();
    if flow == Raised {
      flow := pass.Handler();
    }
    entry, revision, used := pass.entry, pass.revision, pass.used;
    released := flow == Finished;
  }
}
