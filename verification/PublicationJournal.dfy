/**
 * The journal of epoch publications and its file (pipeline/epoch-publication-journal.ts, lines 115-189). An entry
 * is named by its intent: the identifier is a digest of the intent, which no two intents share. A transaction
 * stands for its canonical bytes.
 */
module PublicationJournal {
  import opened Prelude

  datatype Scope = Scope(chainId: int, source: nat, publisher: nat)

  /** parses: the call data is a canonical publication call and the hashes are well formed. */
  datatype Intent = Intent(calldata: nat, parses: bool, cutoffNumber: int, cutoffHash: nat, replicas: Option<int>,
      createdAt: int)

  datatype Tx = Tx(nonce: int, chainId: int, sender: nat, to: Option<nat>, value: nat, data: nat, signed: bool,
      hash: nat, bytes: nat)

  datatype Confirmation = Confirmation(hash: nat, blockNumber: int, blockHash: nat, status: int, confirmations: int,
      observedAt: int)

  datatype Entry = Entry(intent: Intent, transaction: Option<Tx>, confirmation: Option<Confirmation>,
      abandonedAt: Option<int>)

  datatype Failure =
    | Closed | WriteUnconfirmed | Invalid | IntentInvalid | OpenEntry | Capacity | NotFound | Abandoned
    | TransactionMismatch | ReplacementForbidden | NonceReused | ConfirmationConflict | SignedCannotAbandon

  /** How the file write of a save ends; an unacknowledged one may have landed. */
  datatype Write = Written | TooLarge | Unacknowledged(landed: bool)

  /** The open journal and its file. */
  datatype State = State(entries: seq<Entry>, closed: bool, poisoned: bool, disk: seq<Entry>)

  datatype Op =
    | Begin(intent: Intent, write: Write)
    | Prepare(id: Intent, tx: Tx, write: Write)
    | Confirm(id: Intent, confirmation: Confirmation, write: Write)
    | AbandonUnsigned(id: Intent, at: int, write: Write)
    | Close
    /** The process ended, however; another opens the file. */
    | Reopen

  datatype Outcome = Stored(entry: Entry) | Done | Threw(why: Failure)

  const MAX_ENTRIES := 1000

  predicate Safe(n: int, min: int) {
    min <= n <= MAX_SAFE_INTEGER
  }

  predicate IntentOk(i: Intent) {
    i.parses && Safe(i.createdAt, 0) && Safe(i.cutoffNumber, 1) && (i.replicas.Some? ==> Safe(i.replicas.value, 2))
  }

  predicate Bound(scope: Scope, t: Tx, i: Intent) {
    t.signed && t.chainId == scope.chainId && t.sender == scope.publisher && t.to == Some(scope.source) && t.value == 0
    && t.data == i.calldata && Safe(t.nonce, 0)
  }

  predicate Unresolved(e: Entry) {
    e.confirmation.None? && e.abandonedAt.None?
  }

  predicate EntryOk(scope: Scope, e: Entry) {
    && IntentOk(e.intent)
    && (e.abandonedAt.Some? ==>
          e.transaction.None? && e.confirmation.None? && Safe(e.abandonedAt.value, e.intent.createdAt))
    && (e.transaction.Some? ==> Bound(scope, e.transaction.value, e.intent))
    && (e.confirmation.Some? ==>
          var c := e.confirmation.value;
          e.transaction.Some? && c.hash == e.transaction.value.hash && Safe(c.blockNumber, 1) &&
              (c.status == 0 || c.status == 1)
          && Safe(c.confirmations, 1) && Safe(c.observedAt, e.intent.createdAt))
  }

  /** What is checked of a journal when it is read and before it is written. */
  ghost predicate Valid(scope: Scope, entries: seq<Entry>) {
    && |entries| <= MAX_ENTRIES
    && (forall k :: 0 <= k < |entries| ==>
          EntryOk(scope, entries[k]) && (Unresolved(entries[k]) ==> k == |entries| - 1))
    && (forall j, k :: 0 <= j < k < |entries| ==> entries[j].intent != entries[k].intent)
  }

  // ---------- Specification of each operation ----------

  function Find(entries: seq<Entry>, id: Intent): (k: nat)
    ensures k <= |entries| && (k < |entries| ==> entries[k].intent == id)
    ensures forall j :: 0 <= j < k ==> entries[j].intent != id
  {
    if entries == [] || entries[0].intent == id then 0 else 1 + Find(entries[1..], id)
  }

  ghost function Saved(scope: Scope, s: State, next: seq<Entry>, write: Write): (State, Option<Failure>) {
    if s.closed then (s, Some(Closed))
    else if s.poisoned then (s, Some(WriteUnconfirmed))
    else if !Valid(scope, next) then (s, Some(Invalid))
    else
      match write
      case TooLarge => (s, Some(Capacity))
      case Unacknowledged(landed) => (s.(poisoned := true, disk := if landed then next else s.disk),
          Some(WriteUnconfirmed))
      case Written => (s.(entries := next, disk := next), None)
  }

  ghost function SaveEntry(scope: Scope, s: State, k: nat, e: Entry, write: Write): (State, Outcome)
    requires k < |s.entries|
  {
    var (t, failure) := Saved(scope, s, s.entries[k := e], write);
    (t, if failure.Some? then Threw(failure.value) else Stored(e))
  }

  ghost function BeginEntry(scope: Scope, s: State, i: Intent, write: Write): (State, Outcome) {
    var k := Find(s.entries, i);
    if !IntentOk(i) then (s, Threw(IntentInvalid))
    else if k < |s.entries| then (s, Stored(s.entries[k]))
    else if exists e :: e in s.entries && Unresolved(e) then (s, Threw(OpenEntry))
    else if |s.entries| >= MAX_ENTRIES then (s, Threw(Capacity))
    else
      var e := Entry(i, None, None, None);
      var (t, failure) := Saved(scope, s, s.entries + [e], write);
      (t, if failure.Some? then Threw(failure.value) else Stored(e))
  }

  ghost function PrepareEntry(scope: Scope, s: State, id: Intent, tx: Tx, write: Write): (State, Outcome) {
    var k := Find(s.entries, id);
    if k == |s.entries| then (s, Threw(NotFound))
    else if s.entries[k].abandonedAt.Some? then (s, Threw(Abandoned))
    else if !Bound(scope, tx, id) then (s, Threw(TransactionMismatch))
    else if s.entries[k].transaction.Some? then
      (s, if s.entries[k].transaction.value != tx then Threw(ReplacementForbidden) else Stored(s.entries[k]))
    else if exists e :: e in s.entries && e.transaction.Some? && e.transaction.value.nonce == tx.nonce
    then (s, Threw(NonceReused))
    else SaveEntry(scope, s, k, s.entries[k].(transaction := Some(tx)), write)
  }

  ghost function ConfirmEntry(scope: Scope, s: State, id: Intent, c: Confirmation, write: Write): (State, Outcome) {
    var k := Find(s.entries, id);
    if k == |s.entries| then (s, Threw(NotFound))
    else if s.entries[k].confirmation.Some? then
      (s, if s.entries[k].confirmation.value != c then Threw(ConfirmationConflict) else Stored(s.entries[k]))
    else SaveEntry(scope, s, k, s.entries[k].(confirmation := Some(c)), write)
  }

  ghost function AbandonEntry(scope: Scope, s: State, id: Intent, at: int, write: Write): (State, Outcome) {
    var k := Find(s.entries, id);
    if k == |s.entries| then (s, Threw(NotFound))
    else if s.entries[k].transaction.Some? || s.entries[k].confirmation.Some? then (s, Threw(SignedCannotAbandon))
    else if s.entries[k].abandonedAt.Some? then (s, Stored(s.entries[k]))
    else SaveEntry(scope, s, k, s.entries[k].(abandonedAt := Some(at)), write)
  }

  ghost function Apply(scope: Scope, s: State, op: Op): (State, Outcome) {
    if op.Reopen? then
      if Valid(scope, s.disk) then (State(s.disk, false, false, s.disk), Done) else (s.(closed := true), Threw(Invalid))
    else if op.Close? then (s.(closed := true), Done)
    else if s.closed then (s, Threw(Closed))
    else if s.poisoned then (s, Threw(WriteUnconfirmed))
    else
      match op
      case Begin(i, write) => BeginEntry(scope, s, i, write)
      case Prepare(id, tx, write) => PrepareEntry(scope, s, id, tx, write)
      case Confirm(id, c, write) => ConfirmEntry(scope, s, id, c, write)
      case AbandonUnsigned(id, at, write) => AbandonEntry(scope, s, id, at, write)
  }

  // ---------- The journal, changed in place ----------

  class Journal {
    const scope: Scope
    var entries: seq<Entry>
    var closed: bool
    var poisoned: bool
    var disk: seq<Entry>

    ghost function Now(): State
      reads this
    {
      State(entries, closed, poisoned, disk)
    }

    constructor (scope: Scope)
      ensures this.scope == scope && Now() == State([], false, false, [])
    {
      this.scope := scope;
      entries, closed, poisoned, disk := [], false, false, [];
    }

    method Check() returns (failure: Option<Failure>)
      ensures failure == if closed then Some(Closed) else if poisoned then Some(WriteUnconfirmed) else None
    {
      failure := if closed then Some(Closed) else if poisoned then Some(WriteUnconfirmed) else None;
    }

    method Validate(next: seq<Entry>) returns (ok: bool)
      ensures ok <==> Valid(scope, next)
    {
      if |next| > MAX_ENTRIES {
        return false;
      }
      var ids: set<Intent> := {};
      for k := 0 to |next|
        invariant ids == set j | 0 <= j < k :: next[j].intent
        invariant forall j :: 0 <= j < k ==> EntryOk(scope, next[j]) && (Unresolved(next[j]) ==> j == |next| - 1)
        invariant forall i, j :: 0 <= i < j < k ==> next[i].intent != next[j].intent
      {
        if !EntryOk(scope, next[k]) || next[k].intent in ids {
          return false;
        }
        if Unresolved(next[k]) && k != |next| - 1 {
          return false;
        }
        ids := ids + {next[k].intent};
      }
      return true;
    }

    method Save(next: seq<Entry>, write: Write) returns (failure: Option<Failure>)
      modifies this
      ensures (Now(), failure) == Saved(scope, old(Now()), next, write)
    {
      failure := Check();
      if failure.Some? {
        return;
      }
      var ok := Validate(next);
      if !ok {
        return Some(Invalid);
      }
      match write {
        case TooLarge =>
          failure := Some(Capacity);
        case Unacknowledged(landed) =>
          if landed {
            disk := next;
          }
          poisoned := true;
          failure := Some(WriteUnconfirmed);
        case Written =>
          disk := next;
          entries := next;
      }
    }

    method Begin(i: Intent, write: Write) returns (out: Outcome)
      modifies this
      ensures (Now(), out) == Apply(scope, old(Now()), Op.Begin(i, write))
    {
      var failure := Check();
      if failure.Some? {
        return Threw(failure.value);
      }
      if !IntentOk(i) {
        return Threw(IntentInvalid);
      }
      var k := Find(entries, i);
      if k < |entries| {
        return Stored(entries[k]);
      }
      if exists e :: e in entries && Unresolved(e) {
        return Threw(OpenEntry);
      }
      if |entries| >= MAX_ENTRIES {
        return Threw(Capacity);
      }
      var e := Entry(i, None, None, None);
      failure := Save(entries + [e], write);
      return if failure.Some? then Threw(failure.value) else Stored(e);
    }

    method Prepare(id: Intent, tx: Tx, write: Write) returns (out: Outcome)
      modifies this
      ensures (Now(), out) == Apply(scope, old(Now()), Op.Prepare(id, tx, write))
    {
      var failure := Check();
      if failure.Some? {
        return Threw(failure.value);
      }
      var k := Find(entries, id);
      if k == |entries| {
        return Threw(NotFound);
      }
      var e := entries[k];
      if e.abandonedAt.Some? {
        return Threw(Abandoned);
      }
      if !Bound(scope, tx, e.intent) {
        return Threw(TransactionMismatch);
      }
      if e.transaction.Some? {
        return if e.transaction.value != tx then Threw(ReplacementForbidden) else Stored(e);
      }
      if exists o :: o in entries && o.transaction.Some? && o.transaction.value.nonce == tx.nonce {
        return Threw(NonceReused);
      }
      e := e.(transaction := Some(tx));
      failure := Save(entries[k := e], write);
      return if failure.Some? then Threw(failure.value) else Stored(e);
    }

    method Confirm(id: Intent, c: Confirmation, write: Write) returns (out: Outcome)
      modifies this
      ensures (Now(), out) == Apply(scope, old(Now()), Op.Confirm(id, c, write))
    {
      var failure := Check();
      if failure.Some? {
        return Threw(failure.value);
      }
      var k := Find(entries, id);
      if k == |entries| {
        return Threw(NotFound);
      }
      var e := entries[k];
      if e.confirmation.Some? {
        return if e.confirmation.value != c then Threw(ConfirmationConflict) else Stored(e);
      }
      e := e.(confirmation := Some(c));
      failure := Save(entries[k := e], write);
      return if failure.Some? then Threw(failure.value) else Stored(e);
    }

    method AbandonUnsigned(id: Intent, at: int, write: Write) returns (out: Outcome)
      modifies this
      ensures (Now(), out) == Apply(scope, old(Now()), Op.AbandonUnsigned(id, at, write))
    {
      var failure := Check();
      if failure.Some? {
        return Threw(failure.value);
      }
      var k := Find(entries, id);
      if k == |entries| {
        return Threw(NotFound);
      }
      var e := entries[k];
      if e.transaction.Some? || e.confirmation.Some? {
        return Threw(SignedCannotAbandon);
      }
      if e.abandonedAt.Some? {
        return Stored(e);
      }
      e := e.(abandonedAt := Some(at));
      failure := Save(entries[k := e], write);
      return if failure.Some? then Threw(failure.value) else Stored(e);
    }

    method Close()
      modifies this
      ensures Now() == Apply(scope, old(Now()), Op.Close).0
    {
      closed := true;
    }

    /** A new process over the same file. */
    method Reopen() returns (out: Outcome)
      modifies this
      ensures (Now(), out) == Apply(scope, old(Now()), Op.Reopen)
    {
      var ok := Validate(disk);
      if !ok {
        closed := true;
        return Threw(Invalid);
      }
      entries, closed, poisoned := disk, false, false;
      return Done;
    }

    /** Any one call. */
    method Do(op: Op) returns (out: Outcome)
      modifies this
      ensures (Now(), out) == Apply(scope, old(Now()), op)
    {
      match op {
        case Begin(i, write) => out := Begin(i, write);
        case Prepare(id, tx, write) => out := Prepare(id, tx, write);
        case Confirm(id, c, write) => out := Confirm(id, c, write);
        case AbandonUnsigned(id, at, write) => out := AbandonUnsigned(id, at, write);
        case Close =>
          Close();
          out := Done;
        case Reopen => out := Reopen();
      }
    }
  }

  // ---------- What every operation keeps ----------

  /** No two entries were ever signed with one nonce; this is not checked when a journal is read. */
  ghost predicate NoncesDiffer(entries: seq<Entry>) {
    forall j, k :: 0 <= j < k < |entries| && entries[j].transaction.Some? && entries[k].transaction.Some? ==>
      entries[j].transaction.value.nonce != entries[k].transaction.value.nonce
  }

  /** Entries keep their place; what is set in one stays set as it is. */
  ghost predicate Extends(a: seq<Entry>, b: seq<Entry>) {
    && |a| <= |b|
    && (forall k :: 0 <= k < |a| ==>
          && b[k].intent == a[k].intent
          && (a[k].transaction.Some? ==> b[k].transaction == a[k].transaction)
          && (a[k].confirmation.Some? ==> b[k].confirmation == a[k].confirmation)
          && (a[k].abandonedAt.Some? ==> b[k].abandonedAt == a[k].abandonedAt))
  }

  ghost predicate Good(scope: Scope, entries: seq<Entry>) {
    Valid(scope, entries) && NoncesDiffer(entries)
  }

  /** The file is what the process holds, or one unacknowledged step ahead of it. */
  ghost predicate Inv(scope: Scope, s: State) {
    Good(scope, s.entries) && Good(scope, s.disk) && Extends(s.entries, s.disk) && (!s.poisoned ==> s.disk == s.entries)
  }

  /** One more step of a journal: the invariant holds, the file grows, and so does what the process holds. */
  ghost predicate Grows(scope: Scope, s: State, t: State) {
    Inv(scope, t) && Extends(s.disk, t.disk) && Extends(s.entries, t.entries)
  }

  lemma SavedGrows(scope: Scope, s: State, next: seq<Entry>, write: Write)
    requires Inv(scope, s) && Extends(s.entries, next) && NoncesDiffer(next)
    ensures Grows(scope, s, Saved(scope, s, next, write).0)
  {
  }

  /** Writing one entry anew keeps the nonces apart when its own is kept or new. */
  lemma EntryKeepsNonces(entries: seq<Entry>, k: nat, e: Entry)
    requires NoncesDiffer(entries) && k < |entries|
    requires e.transaction == entries[k].transaction || NewNonce(entries, e.transaction)
    ensures NoncesDiffer(entries[k := e])
  {
    var next := entries[k := e];
    forall i, j | 0 <= i < j < |next| && next[i].transaction.Some? && next[j].transaction.Some?
      ensures next[i].transaction.value.nonce != next[j].transaction.value.nonce
    {
      assert i != k ==> next[i] == entries[i];
      assert j != k ==> next[j] == entries[j];
    }
  }

  ghost predicate NewNonce(entries: seq<Entry>, t: Option<Tx>) {
    t.Some? && forall e :: e in entries && e.transaction.Some? ==> e.transaction.value.nonce != t.value.nonce
  }

  lemma EntrySavedGrows(scope: Scope, s: State, k: nat, e: Entry, write: Write)
    requires Inv(scope, s) && k < |s.entries| && Extends(s.entries, s.entries[k := e])
    requires e.transaction == s.entries[k].transaction || NewNonce(s.entries, e.transaction)
    ensures Grows(scope, s, SaveEntry(scope, s, k, e, write).0)
  {
    EntryKeepsNonces(s.entries, k, e);
    SavedGrows(scope, s, s.entries[k := e], write);
  }

  /** Every call but a restart. */
  lemma CallGrows(scope: Scope, s: State, op: Op)
    requires Inv(scope, s) && !op.Reopen?
    ensures Grows(scope, s, Apply(scope, s, op).0)
  {
    if !op.Close? && !s.closed && !s.poisoned {
      match op {
        case Begin(i, write) => SavedGrows(scope, s, s.entries + [Entry(i, None, None, None)], write);
        case Prepare(id, tx, write) => PrepareGrows(scope, s, id, tx, write);
        case Confirm(id, c, write) => ConfirmGrows(scope, s, id, c, write);
        case AbandonUnsigned(id, at, write) => AbandonGrows(scope, s, id, at, write);
      }
    }
  }

  lemma StepKeepsInv(scope: Scope, s: State, op: Op)
    requires Inv(scope, s)
    ensures Inv(scope, Apply(scope, s, op).0) && Extends(s.disk, Apply(scope, s, op).0.disk)
  {
    if !op.Reopen? {
      CallGrows(scope, s, op);
    }
  }

  lemma ConfirmGrows(scope: Scope, s: State, id: Intent, c: Confirmation, write: Write)
    requires Inv(scope, s)
    ensures Grows(scope, s, ConfirmEntry(scope, s, id, c, write).0)
  {
    var k := Find(s.entries, id);
    if k < |s.entries| && s.entries[k].confirmation.None? {
      EntrySavedGrows(scope, s, k, s.entries[k].(confirmation := Some(c)), write);
    }
  }

  lemma AbandonGrows(scope: Scope, s: State, id: Intent, at: int, write: Write)
    requires Inv(scope, s)
    ensures Grows(scope, s, AbandonEntry(scope, s, id, at, write).0)
  {
    var k := Find(s.entries, id);
    if k < |s.entries| && s.entries[k].abandonedAt.None? {
      EntrySavedGrows(scope, s, k, s.entries[k].(abandonedAt := Some(at)), write);
    }
  }

  lemma PrepareGrows(scope: Scope, s: State, id: Intent, tx: Tx, write: Write)
    requires Inv(scope, s) && !s.closed && !s.poisoned
    ensures Grows(scope, s, PrepareEntry(scope, s, id, tx, write).0)
  {
    var k := Find(s.entries, id);
    if k < |s.entries| && s.entries[k].transaction.None? && NewNonce(s.entries, Some(tx)) {
      EntrySavedGrows(scope, s, k, s.entries[k].(transaction := Some(tx)), write);
    }
  }

  lemma ExtendsIsTransitive(a: seq<Entry>, b: seq<Entry>, c: seq<Entry>)
    requires Extends(a, b) && Extends(b, c)
    ensures Extends(a, c)
  {
  }
}
