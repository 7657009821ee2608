/**
 * The bank-challenge stores (pipeline/bank-state.ts). Redis drops every expired key before a call; the
 * demonstration store sweeps only when a challenge is reserved. The two are not equivalent; what is stated
 * here holds of each. Clocks do not run backwards.
 */
module BankState {
  import opened Prelude

  const ATTEMPTS := 5
  const LIFETIME_MS := 600_000
  const BUDGET_MS := 86_400_000

  type Request = string
  type Challenge = string

  datatype Key = Flow(name: string) | Account(name: string) | Wallet(name: string) | Global

  function Limit(key: Key): nat {
    match key
    case Flow(_) => 3
    case Account(_) => 3
    case Wallet(_) => 5
    case Global => 1000
  }

  datatype Reservation = Reservation(request: Request, flow: string, account: string, wallet: string, fingerprint: nat,
      challenge: Challenge)

  datatype Phase = Pending | Ready | Consumed | Locked

  datatype Record = Record(phase: Phase, id: Challenge, fingerprint: nat, expiresAt: nat, deleteAt: nat, attempts: nat,
      response: Option<nat>)

  type Positive = n: nat | 1 <= n witness 1

  /** Starts counted in the current window; a flow's budget also names its current challenge. */
  datatype Budget = Budget(count: Positive, expiresAt: nat, current: Option<Challenge>)

  datatype StoreState = StoreState(now: nat, records: map<Request, Record>, budgets: map<Key, Budget>)

  datatype Op =
    | Reserve(input: Reservation)
    | Activate(request: Request, flow: string, challenge: Challenge, response: nat)
    | Verify(request: Request, flow: string, challenge: Challenge, matches: bool)

  datatype Code = Conflict | StartPending | Unavailable | BudgetExceeded | Expired | TooManyAttempts

  datatype Reply = Reserved(expiresAt: nat) | Cached(response: Option<nat>) | Activated | Verified
      | Mismatch(remaining: nat) | Refused(code: Code)

  datatype Mode = Redis | Demo

  // ---------- Specification of one call ----------

  function Sweep(s: StoreState): StoreState {
    s.(records := map q | q in s.records && s.now < s.records[q].deleteAt :: s.records[q],
       budgets := map k | k in s.budgets && s.now < s.budgets[k].expiresAt :: s.budgets[k])
  }

  function Advance(mode: Mode, s: StoreState, now: nat, op: Op): StoreState {
    var t := s.(now := Max(s.now, now));
    if mode == Redis || op.Reserve? then Sweep(t) else t
  }

  function KeysOf(input: Reservation): seq<Key> {
    [Flow(input.flow), Account(input.account), Wallet(input.wallet), Global]
  }

  predicate IsCurrent(s: StoreState, flow: string, id: Challenge) {
    Flow(flow) in s.budgets && s.budgets[Flow(flow)].current == Some(id)
  }

  predicate Exhausted(budgets: map<Key, Budget>, key: Key) {
    key in budgets && budgets[key].count >= Limit(key)
  }

  /** One more start; the first of a window opens it. */
  function Raised(budgets: map<Key, Budget>, key: Key, now: nat): map<Key, Budget> {
    budgets[key := if key in budgets then budgets[key].(count := budgets[key].count + 1)
        else Budget(1, now + BUDGET_MS, None)]
  }

  function RaisedAll(budgets: map<Key, Budget>, keys: seq<Key>, now: nat): map<Key, Budget> {
    if keys == [] then budgets else Raised(RaisedAll(budgets, keys[..|keys| - 1], now), keys[|keys| - 1], now)
  }

  function ReserveChallenge(s: StoreState, input: Reservation): (StoreState, Reply) {
    if input.request in s.records then
      var r := s.records[input.request];
      (s, if r.fingerprint != input.fingerprint then Refused(Conflict)
          else if r.phase == Ready && IsCurrent(s, input.flow, r.id) && r.expiresAt > s.now then Cached(r.response)
          else Refused(if r.phase == Pending then StartPending else Unavailable))
    else if exists k :: k in KeysOf(input) && Exhausted(s.budgets, k) then (s, Refused(BudgetExceeded))
    else
      var budgets := RaisedAll(s.budgets, KeysOf(input), s.now);
      RaisedHasAll(s.budgets, KeysOf(input), s.now);
      assert Flow(input.flow) in KeysOf(input);
      var r := Record(Pending, input.challenge, input.fingerprint, s.now + LIFETIME_MS, s.now + BUDGET_MS, 0, None);
      (s.(budgets := budgets[Flow(input.flow) := budgets[Flow(input.flow)].(current := Some(input.challenge))],
          records := s.records[input.request := r]),
       Reserved(s.now + LIFETIME_MS))
  }

  lemma RaisedHasAll(budgets: map<Key, Budget>, keys: seq<Key>, now: nat)
    ensures forall k :: k in keys ==> k in RaisedAll(budgets, keys, now)
  {
    if keys != [] {
      RaisedHasAll(budgets, keys[..|keys| - 1], now);
      assert keys == keys[..|keys| - 1] + [keys[|keys| - 1]];
    }
  }

  /** Why a challenge cannot be used now, if so. */
  function Obstacle(s: StoreState, q: Request, flow: string, id: Challenge): Option<Code> {
    if q !in s.records || s.records[q].id != id || !IsCurrent(s, flow, id) then Some(Unavailable)
    else if s.records[q].expiresAt <= s.now then Some(Expired)
    else None
  }

  function ActivateChallenge(s: StoreState, q: Request, flow: string, id: Challenge, response: nat)
    : (StoreState, Reply)
  {
    var o := Obstacle(s, q, flow, id);
    if o.Some? then (s, Refused(o.value))
    else if s.records[q].phase != Pending then (s, Refused(Unavailable))
    else (s.(records := s.records[q := s.records[q].(phase := Ready, response := Some(response))]), Activated)
  }

  function VerifyChallenge(s: StoreState, q: Request, flow: string, id: Challenge, matches: bool): (StoreState, Reply) {
    var o := Obstacle(s, q, flow, id);
    if o.Some? then (s, Refused(o.value))
    else
      var r := s.records[q];
      if r.phase == Locked then (s, Refused(TooManyAttempts))
      else if r.phase != Ready then (s, Refused(Unavailable))
      else if matches then (s.(records := s.records[q := r.(phase := Consumed, response := None)]), Verified)
      else if r.attempts + 1 >= ATTEMPTS then
        (s.(records := s.records[q := r.(attempts := r.attempts + 1, phase := Locked, response := None)]),
            Refused(TooManyAttempts))
      else (s.(records := s.records[q := r.(attempts := r.attempts + 1)]), Mismatch(ATTEMPTS - (r.attempts + 1)))
  }

  function Operate(t: StoreState, op: Op): (StoreState, Reply) {
    match op
    case Reserve(input) => ReserveChallenge(t, input)
    case Activate(q, flow, id, response) => ActivateChallenge(t, q, flow, id, response)
    case Verify(q, flow, id, matches) => VerifyChallenge(t, q, flow, id, matches)
  }

  function Execute(mode: Mode, s: StoreState, now: nat, op: Op): (StoreState, Reply) {
    Operate(Advance(mode, s, now, op), op)
  }

  // ---------- The script, key by key ----------

  class RedisBank {
    var now: nat
    var records: map<Request, Record>
    var budgets: map<Key, Budget>

    ghost function State(): StoreState
      reads this
    {
      StoreState(now, records, budgets)
    }

    constructor ()
      ensures State() == StoreState(0, map[], map[])
    {
      now, records, budgets := 0, map[], map[];
    }

    method Run(time: nat, op: Op) returns (reply: Reply)
      modifies this
      ensures (State(), reply) == Execute(Redis, old(State()), time, op)
    {
      now := Max(now, time);
      records := map q | q in records && now < records[q].deleteAt :: records[q];
      budgets := map k | k in budgets && now < budgets[k].expiresAt :: budgets[k];
      if op.Reserve? {
        reply := Start(op.input);
        return;
      }
      var q, flow, id := op.request, Flow(op.flow), op.challenge;
      if q !in records || records[q].id != id || flow !in budgets || budgets[flow].current != Some(id) {
        return Refused(Unavailable);
      }
      if records[q].expiresAt <= now {
        return Refused(Expired);
      }
      var phase := records[q].phase;
      if op.Activate? {
        if phase != Pending {
          return Refused(Unavailable);
        }
        records := records[q := records[q].(phase := Ready, response := Some(op.response))];
        return Activated;
      }
      if phase == Locked {
        return Refused(TooManyAttempts);
      }
      if phase != Ready {
        return Refused(Unavailable);
      }
      var r := records[q];
      if op.matches {
        r := r.(phase := Consumed);
        records := records[q := r.(response := None)];
        return Verified;
      }
      r := r.(attempts := r.attempts + 1);
      if r.attempts >= ATTEMPTS {
        r := r.(phase := Locked);
        records := records[q := r.(response := None)];
        return Refused(TooManyAttempts);
      }
      records := records[q := r];
      return Mismatch(ATTEMPTS - r.attempts);
    }

    method Start(input: Reservation) returns (reply: Reply)
      modifies this`records, this`budgets
      ensures (State(), reply) == ReserveChallenge(old(State()), input)
    {
      var q, flow := input.request, Flow(input.flow);
      if q in records {
        if records[q].fingerprint != input.fingerprint {
          return Refused(Conflict);
        }
        if records[q].phase == Ready && flow in budgets && budgets[flow].current == Some(records[q].id) &&
            records[q].expiresAt > now {
          return Cached(records[q].response);
        }
        return Refused(if records[q].phase == Pending then StartPending else Unavailable);
      }
      var keys := KeysOf(input);
      var full := AnyExhausted(keys);
      if full {
        return Refused(BudgetExceeded);
      }
      CountStarts(keys);
      assert keys[0] == flow;
      RaisedHasAll(old(budgets), keys, now);
      budgets := budgets[flow := budgets[flow].(current := Some(input.challenge))];
      records := records[q := Record(Pending, input.challenge, input.fingerprint, now + LIFETIME_MS, now + BUDGET_MS,
          0, None)];
      return Reserved(now + LIFETIME_MS);
    }

    method AnyExhausted(keys: seq<Key>) returns (full: bool)
      ensures full <==> exists k :: k in keys && Exhausted(budgets, k)
    {
      for i := 0 to |keys|
        invariant forall k :: k in keys[..i] ==> !Exhausted(budgets, k)
      {
        if keys[i] in budgets && budgets[keys[i]].count >= Limit(keys[i]) {
          assert keys[i] in keys && Exhausted(budgets, keys[i]);
          return true;
        }
        assert keys[..i + 1] == keys[..i] + [keys[i]];
      }
      assert keys[..|keys|] == keys;
      return false;
    }

    method CountStarts(keys: seq<Key>)
      modifies this`budgets
      ensures budgets == RaisedAll(old(budgets), keys, now)
    {
      for i := 0 to |keys|
        invariant budgets == RaisedAll(old(budgets), keys[..i], now)
      {
        assert keys[..i + 1][..i] == keys[..i];
        var count := if keys[i] in budgets then budgets[keys[i]].count + 1 else 1;
        // The first start of a window sets its end.
        budgets := budgets[keys[i] := if count == 1 then Budget(1, now + BUDGET_MS, None)
            else budgets[keys[i]].(count := count)];
      }
      assert keys[..|keys|] == keys;
    }
  }

  // ---------- The demonstration store ----------

  class DemoBank {
    var now: nat
    var records: map<Request, Record>
    var budgets: map<Key, Budget>

    ghost function State(): StoreState
      reads this
    {
      StoreState(now, records, budgets)
    }

    constructor ()
      ensures State() == StoreState(0, map[], map[])
    {
      now, records, budgets := 0, map[], map[];
    }

    method SweepExpired()
      modifies this`records, this`budgets
      ensures State() == Sweep(old(State()))
    {
      var todo := records.Keys;
      while todo != {}
        invariant todo <= records.Keys && budgets == old(budgets)
        invariant forall q :: q in records <==> q in old(records) && (q in todo || now < old(records)[q].deleteAt)
        invariant forall q :: q in records ==> records[q] == old(records)[q]
      {
        var q :| q in todo;
        todo := todo - {q};
        if records[q].deleteAt <= now {
          records := records - {q};
        }
      }
      var left := budgets.Keys;
      while left != {}
        invariant left <= budgets.Keys && records == Sweep(old(State())).records
        invariant forall k :: k in budgets <==> k in old(budgets) && (k in left || now < old(budgets)[k].expiresAt)
        invariant forall k :: k in budgets ==> budgets[k] == old(budgets)[k]
      {
        var k :| k in left;
        left := left - {k};
        if budgets[k].expiresAt <= now {
          budgets := budgets - {k};
        }
      }
    }

    method Reserve(time: nat, input: Reservation) returns (reply: Reply)
      modifies this
      ensures (State(), reply) == Execute(Demo, old(State()), time, Op.Reserve(input))
    {
      now := Max(now, time);
      SweepExpired();
      reply := Start(input);
    }

    method Start(input: Reservation) returns (reply: Reply)
      modifies this`records, this`budgets
      ensures (State(), reply) == ReserveChallenge(old(State()), input)
    {
      if input.request in records {
        var r := records[input.request];
        if r.fingerprint != input.fingerprint {
          return Refused(Conflict);
        }
        if r.phase == Ready && r.expiresAt > now && Flow(input.flow) in budgets &&
            budgets[Flow(input.flow)].current == Some(r.id) {
          return Cached(r.response);
        }
        return Refused(if r.phase == Pending then StartPending else Unavailable);
      }
      var keys := KeysOf(input);
      if exists k :: k in keys && Exhausted(budgets, k) {
        return Refused(BudgetExceeded);
      }
      CountStarts(keys);
      assert keys[0] == Flow(input.flow);
      RaisedHasAll(old(budgets), keys, now);
      budgets := budgets[keys[0] := budgets[keys[0]].(current := Some(input.challenge))];
      records := records[input.request := Record(Pending, input.challenge, input.fingerprint, now + LIFETIME_MS,
          now + BUDGET_MS, 0, None)];
      return Reserved(now + LIFETIME_MS);
    }

    method CountStarts(keys: seq<Key>)
      modifies this`budgets
      ensures budgets == RaisedAll(old(budgets), keys, now)
    {
      for i := 0 to |keys|
        invariant budgets == RaisedAll(old(budgets), keys[..i], now)
      {
        assert keys[..i + 1][..i] == keys[..i];
        if keys[i] in budgets {
          budgets := budgets[keys[i] := budgets[keys[i]].(count := budgets[keys[i]].count + 1)];
        } else {
          budgets := budgets[keys[i] := Budget(1, now + BUDGET_MS, None)];
        }
      }
      assert keys[..|keys|] == keys;
    }

    method Current(q: Request, flow: string, id: Challenge) returns (failure: Option<Code>)
      ensures failure == Obstacle(State(), q, flow, id)
    {
      if q !in records || records[q].id != id || Flow(flow) !in budgets || budgets[Flow(flow)].current != Some(id) {
        return Some(Unavailable);
      }
      return if records[q].expiresAt <= now then Some(Expired) else None;
    }

    method Activate(time: nat, q: Request, flow: string, id: Challenge, response: nat) returns (reply: Reply)
      modifies this
      ensures (State(), reply) == Execute(Demo, old(State()), time, Op.Activate(q, flow, id, response))
    {
      now := Max(now, time);
      var failure := Current(q, flow, id);
      if failure.Some? {
        return Refused(failure.value);
      }
      if records[q].phase != Pending {
        return Refused(Unavailable);
      }
      records := records[q := records[q].(phase := Ready, response := Some(response))];
      return Activated;
    }

    method Verify(time: nat, q: Request, flow: string, id: Challenge, matches: bool) returns (reply: Reply)
      modifies this
      ensures (State(), reply) == Execute(Demo, old(State()), time, Op.Verify(q, flow, id, matches))
    {
      now := Max(now, time);
      var failure := Current(q, flow, id);
      if failure.Some? {
        return Refused(failure.value);
      }
      var r := records[q];
      if r.phase == Locked {
        return Refused(TooManyAttempts);
      }
      if r.phase != Ready {
        return Refused(Unavailable);
      }
      if matches {
        records := records[q := r.(phase := Consumed, response := None)];
        return Verified;
      }
      r := r.(attempts := r.attempts + 1);
      if r.attempts >= ATTEMPTS {
        records := records[q := r.(phase := Locked, response := None)];
        return Refused(TooManyAttempts);
      }
      records := records[q := r];
      return Mismatch(ATTEMPTS - r.attempts);
    }
  }

  // ---------- Runs ----------

  datatype Call = Call(time: nat, op: Op)

  function Initial(): StoreState {
    StoreState(0, map[], map[])
  }

  function Run(mode: Mode, s: StoreState, calls: seq<Call>): StoreState {
    if calls == [] then s
    else Execute(mode, Run(mode, s, calls[..|calls| - 1]), calls[|calls| - 1].time, calls[|calls| - 1].op).0
  }

  // ---------- Verified once, five wrong attempts ----------

  /** What a request's challenge took since its latest grant: successful verifications and wrong answers. */
  datatype Tally = Tally(verified: nat, wrong: nat)

  /** One call, served in the state a after expired keys are gone; a grant starts a new count. */
  function Count(a: StoreState, op: Op, q: Request, t: Tally): Tally {
    var reply := Operate(a, op).1;
    match op
    case Reserve(input) => if input.request == q && reply.Reserved? then Tally(0, 0) else t
    case Activate(_, _, _, _) => t
    case Verify(p, _, _, _) =>
      if p != q then t
      else if reply.Verified? then t.(verified := t.verified + 1)
      else if reply.Mismatch? || (reply == Refused(TooManyAttempts) && q in a.records && a.records[q].phase == Ready)
          then t.(wrong := t.wrong + 1)
      else t
  }

  function SinceGrant(mode: Mode, calls: seq<Call>, q: Request): Tally {
    if calls == [] then Tally(0, 0)
    else
      var before, c := calls[..|calls| - 1], calls[|calls| - 1];
      Count(Advance(mode, Run(mode, Initial(), before), c.time, c.op), c.op, q, SinceGrant(mode, before, q))
  }

  /** A record knows whether it was verified and how many wrong answers it took since its grant. */
  predicate Accounted(s: StoreState, q: Request, t: Tally) {
    && t.verified <= 1 && t.wrong <= ATTEMPTS && (t.verified == 1 ==> t.wrong < ATTEMPTS)
    && (q in s.records ==>
          var r := s.records[q];
          && t.verified == (if r.phase == Consumed then 1 else 0) && t.wrong == r.attempts
          && (r.attempts == ATTEMPTS <==> r.phase == Locked))
  }

  lemma StepKeepsAccount(a: StoreState, op: Op, q: Request, t: Tally)
    requires Accounted(a, q, t)
    ensures Accounted(Operate(a, op).0, q, Count(a, op, q, t))
  {
  }

  lemma {:induction false} RunIsAccounted(mode: Mode, calls: seq<Call>, q: Request)
    ensures Accounted(Run(mode, Initial(), calls), q, SinceGrant(mode, calls, q))
  {
    if calls != [] {
      var before, c := calls[..|calls| - 1], calls[|calls| - 1];
      RunIsAccounted(mode, before, q);
      StepKeepsAccount(Advance(mode, Run(mode, Initial(), before), c.time, c.op), c.op, q, SinceGrant(mode, before, q));
    }
  }

  /**
   * Whatever is called, each single reservation verifies at most once and takes at most five wrong answers;
   * one that took five never verifies.
   */
  lemma OncePerReservation(mode: Mode, calls: seq<Call>, q: Request)
    ensures var t := SinceGrant(mode, calls, q);
            t.verified <= 1 && t.wrong <= ATTEMPTS && (t.verified == 1 ==> t.wrong < ATTEMPTS)
  {
    RunIsAccounted(mode, calls, q);
  }

  // ---------- Superseded and expired challenges ----------

  /** Calls on one challenge. */
  predicate Concerns(op: Op, q: Request, flow: string, id: Challenge) {
    (op.Activate? || op.Verify?) && op.request == q && op.flow == flow && op.challenge == id
  }

  predicate Grants(op: Op, flow: string, id: Challenge) {
    op.Reserve? && op.input.flow == flow && op.input.challenge == id
  }

  lemma NotCurrentStep(mode: Mode, s: StoreState, c: Call, flow: string, id: Challenge)
    requires !IsCurrent(s, flow, id) && !Grants(c.op, flow, id)
    ensures !IsCurrent(Execute(mode, s, c.time, c.op).0, flow, id)
  {
    if c.op.Reserve? {
      var a := Advance(mode, s, c.time, c.op);
      RaisedKeepsCurrent(a.budgets, KeysOf(c.op.input), a.now, flow);
    }
  }

  /** Counting starts moves no flow to another challenge. */
  lemma {:induction false} RaisedKeepsCurrent(budgets: map<Key, Budget>, keys: seq<Key>, now: nat, flow: string)
    ensures Flow(flow) in budgets ==> Flow(flow) in RaisedAll(budgets, keys, now)
    ensures Flow(flow) in budgets ==> RaisedAll(budgets, keys, now)[Flow(flow)].current == budgets[Flow(flow)].current
    ensures Flow(flow) !in budgets && Flow(flow) in RaisedAll(budgets, keys, now) ==>
        RaisedAll(budgets, keys, now)[Flow(flow)].current == None
  {
    if keys != [] {
      RaisedKeepsCurrent(budgets, keys[..|keys| - 1], now, flow);
    }
  }

  /** Once its flow has a newer reservation a challenge is refused, until the flow is granted it again. */
  lemma SupersededIsUnusable(mode: Mode, s: StoreState, first: Call, calls: seq<Call>, last: Call, q: Request,
      id: Challenge)
    requires first.op.Reserve? && Execute(mode, s, first.time, first.op).1.Reserved? && first.op.input.challenge != id
    requires forall c :: c in calls ==> !Grants(c.op, first.op.input.flow, id)
    requires Concerns(last.op, q, first.op.input.flow, id)
    ensures Execute(mode, Run(mode, Execute(mode, s, first.time, first.op).0, calls), last.time, last.op).1 ==
        Refused(Unavailable)
  {
    var t := Execute(mode, s, first.time, first.op).0;
    assert IsCurrent(t, first.op.input.flow, first.op.input.challenge);
    NotCurrentForLong(mode, t, calls, first.op.input.flow, id);
    NotCurrentIsRefused(mode, Run(mode, t, calls), last, q, first.op.input.flow, id);
  }

  lemma NotCurrentIsRefused(mode: Mode, s: StoreState, c: Call, q: Request, flow: string, id: Challenge)
    requires !IsCurrent(s, flow, id) && Concerns(c.op, q, flow, id)
    ensures Execute(mode, s, c.time, c.op).1 == Refused(Unavailable)
  {
  }

  lemma {:induction false} NotCurrentForLong(mode: Mode, s: StoreState, calls: seq<Call>, flow: string, id: Challenge)
    requires !IsCurrent(s, flow, id) && forall c :: c in calls ==> !Grants(c.op, flow, id)
    ensures !IsCurrent(Run(mode, s, calls), flow, id)
  {
    if calls != [] {
      var n := |calls| - 1;
      assert calls[n] in calls;
      NotCurrentForLong(mode, s, calls[..n], flow, id);
      NotCurrentStep(mode, Run(mode, s, calls[..n]), calls[n], flow, id);
    }
  }

  /** A record for the request, if any, ends by this time. */
  predicate EndsBy(s: StoreState, q: Request, end: nat) {
    q in s.records ==> s.records[q].expiresAt <= end
  }

  lemma EndsByStep(mode: Mode, s: StoreState, c: Call, q: Request, end: nat)
    requires EndsBy(s, q, end) && !(c.op.Reserve? && c.op.input.request == q)
    ensures EndsBy(Execute(mode, s, c.time, c.op).0, q, end)
  {
  }

  lemma {:induction false} EndsByForLong(mode: Mode, s: StoreState, calls: seq<Call>, q: Request, end: nat)
    requires EndsBy(s, q, end) && forall c :: c in calls ==> !(c.op.Reserve? && c.op.input.request == q)
    ensures EndsBy(Run(mode, s, calls), q, end)
  {
    if calls != [] {
      var n := |calls| - 1;
      assert calls[n] in calls;
      EndsByForLong(mode, s, calls[..n], q, end);
      EndsByStep(mode, Run(mode, s, calls[..n]), calls[n], q, end);
    }
  }

  /** When its lifetime has ended a reservation is refused, unless its request is reserved anew. */
  lemma ExpiredIsUnusable(mode: Mode, s: StoreState, first: Call, calls: seq<Call>, last: Call, flow: string,
      id: Challenge)
    requires first.op.Reserve? && Execute(mode, s, first.time, first.op).1.Reserved?
    requires forall c :: c in calls ==> !(c.op.Reserve? && c.op.input.request == first.op.input.request)
    requires Concerns(last.op, first.op.input.request, flow, id)
    requires last.time >= Max(s.now, first.time) + LIFETIME_MS
    ensures var r := Execute(mode, Run(mode, Execute(mode, s, first.time, first.op).0, calls), last.time, last.op).1;
            r == Refused(Unavailable) || r == Refused(Expired)
  {
    var t := Execute(mode, s, first.time, first.op).0;
    EndsByForLong(mode, t, calls, first.op.input.request, Max(s.now, first.time) + LIFETIME_MS);
  }

  // ---------- The four counters ----------

  function CountOf(s: StoreState, k: Key): nat {
    if k in s.budgets then s.budgets[k].count else 0
  }

  lemma {:induction false} RaisedCounts(budgets: map<Key, Budget>, keys: seq<Key>, now: nat, k: Key)
    requires forall i, j :: 0 <= i < j < |keys| ==> keys[i] != keys[j]
    ensures var b := RaisedAll(budgets, keys, now);
            && (k in keys ==> k in b && b[k].count == (if k in budgets then budgets[k].count else 0) + 1
                              && b[k].expiresAt == (if k in budgets then budgets[k].expiresAt else now + BUDGET_MS))
            && (k !in keys ==> (k in b <==> k in budgets) && (k in b ==> b[k] == budgets[k]))
  {
    if keys != [] {
      var n := |keys| - 1;
      assert keys == keys[..n] + [keys[n]];
      RaisedCounts(budgets, keys[..n], now, k);
      assert keys[n] !in keys[..n];
    }
  }

  /** A granted start raises the flow, account, wallet and global counters together; any other call raises none. */
  lemma CountersRiseTogether(mode: Mode, s: StoreState, c: Call, k: Key)
    ensures var a := Advance(mode, s, c.time, c.op);
            var (t, reply) := Execute(mode, s, c.time, c.op);
            CountOf(t, k) == CountOf(a, k) + if c.op.Reserve? && reply.Reserved? &&
                k in KeysOf(c.op.input) then 1 else 0
  {
    if c.op.Reserve? {
      var a := Advance(mode, s, c.time, c.op);
      RaisedCounts(a.budgets, KeysOf(c.op.input), a.now, k);
    }
  }

  /** Times at which starts were granted that count against a key, oldest first. */
  function GrantTimes(mode: Mode, calls: seq<Call>, k: Key): seq<nat> {
    if calls == [] then []
    else
      var before, c := calls[..|calls| - 1], calls[|calls| - 1];
      var s := Run(mode, Initial(), before);
      GrantTimes(mode, before, k)
      + if c.op.Reserve? && Execute(mode, s, c.time, c.op).1.Reserved? &&
          k in KeysOf(c.op.input) then [Max(s.now, c.time)] else []
  }

  function Since(times: seq<nat>, from: int): nat {
    if times == [] then 0 else Since(times[..|times| - 1], from) + if times[|times| - 1] >= from then 1 else 0
  }

  lemma {:induction false} SinceLater(times: seq<nat>, from: int)
    requires forall t :: t in times ==> t < from
    ensures Since(times, from) == 0
  {
    if times != [] {
      var n := |times| - 1;
      assert times[n] in times;
      assert forall t :: t in times[..n] ==> t in times;
      SinceLater(times[..n], from);
    }
  }

  lemma SinceAppends(times: seq<nat>, t: nat, from: int)
    ensures Since(times + [t], from) == Since(times, from) + if t >= from then 1 else 0
  {
    assert (times + [t])[..|times|] == times;
  }

  /** A counter is the number of starts granted since its window opened, within its limit; earlier windows are over. */
  ghost predicate Counts(now: nat, count: nat, expiresAt: nat, limit: nat, times: seq<nat>) {
    && BUDGET_MS <= expiresAt <= now + BUDGET_MS
    && (forall t :: t in times ==> t < expiresAt)
    && count == Since(times, expiresAt - BUDGET_MS) && count <= limit
  }

  ghost predicate Window(s: StoreState, k: Key, times: seq<nat>) {
    && (forall t :: t in times ==> t <= s.now)
    && (if k in s.budgets then Counts(s.now, s.budgets[k].count, s.budgets[k].expiresAt, Limit(k), times)
        else forall t :: t in times ==> t < s.now)
  }

  lemma AdvanceKeepsWindow(mode: Mode, s: StoreState, c: Call, k: Key, times: seq<nat>)
    requires Window(s, k, times)
    ensures Window(Advance(mode, s, c.time, c.op), k, times)
    ensures c.op.Reserve? && k in Advance(mode, s, c.time, c.op).budgets ==>
        Max(s.now, c.time) < Advance(mode, s, c.time, c.op).budgets[k].expiresAt
  {
  }

  lemma OneMore(now: nat, count: nat, expiresAt: nat, limit: nat, times: seq<nat>)
    requires Counts(now, count, expiresAt, limit, times) && count < limit && now < expiresAt
    ensures Counts(now, count + 1, expiresAt, limit, times + [now])
  {
    var from: int, more := expiresAt - BUDGET_MS, times + [now];
    SinceAppends(times, now, from);
    assert now >= from;
    forall t | t in more ensures t < expiresAt {
      assert t in times || t == now;
    }
  }

  lemma FirstOne(now: nat, limit: nat, times: seq<nat>)
    requires 1 <= limit && forall t :: t in times ==> t < now
    ensures Counts(now, 1, now + BUDGET_MS, limit, times + [now])
  {
    SinceLater(times, now);
    SinceAppends(times, now, now);
  }

  lemma GrantKeepsWindow(a: StoreState, input: Reservation, k: Key, times: seq<nat>)
    requires Window(a, k, times) && ReserveChallenge(a, input).1.Reserved?
    requires k in a.budgets ==> a.now < a.budgets[k].expiresAt
    ensures Window(ReserveChallenge(a, input).0, k, times + if k in KeysOf(input) then [a.now] else [])
  {
    RaisedCounts(a.budgets, KeysOf(input), a.now, k);
    if k in KeysOf(input) {
      assert !Exhausted(a.budgets, k);
      if k in a.budgets {
        OneMore(a.now, a.budgets[k].count, a.budgets[k].expiresAt, Limit(k), times);
      } else {
        FirstOne(a.now, Limit(k), times);
      }
    } else {
      assert times + [] == times;
    }
  }

  lemma OtherCallsKeepWindow(a: StoreState, op: Op, k: Key, times: seq<nat>)
    requires Window(a, k, times) && !(op.Reserve? && Operate(a, op).1.Reserved?)
    ensures Window(Operate(a, op).0, k, times)
  {
  }

  lemma StepKeepsWindow(mode: Mode, s: StoreState, c: Call, k: Key, times: seq<nat>)
    requires Window(s, k, times)
    ensures Window(Execute(mode, s, c.time, c.op).0, k,
                   times + if c.op.Reserve? && Execute(mode, s, c.time, c.op).1.Reserved? &&
                       k in KeysOf(c.op.input) then [Max(s.now, c.time)] else [])
  {
    AdvanceKeepsWindow(mode, s, c, k, times);
    var a := Advance(mode, s, c.time, c.op);
    if c.op.Reserve? && Operate(a, c.op).1.Reserved? {
      GrantKeepsWindow(a, c.op.input, k, times);
    } else {
      OtherCallsKeepWindow(a, c.op, k, times);
      assert times + [] == times;
    }
  }

  /** After any calls, a counter is exactly the number of starts granted in its window and never above its limit. */
  lemma {:induction false} WindowsAreCounted(mode: Mode, calls: seq<Call>, k: Key)
    ensures Window(Run(mode, Initial(), calls), k, GrantTimes(mode, calls, k))
  {
    if calls != [] {
      var before, c := calls[..|calls| - 1], calls[|calls| - 1];
      WindowsAreCounted(mode, before, k);
      StepKeepsWindow(mode, Run(mode, Initial(), before), c, k, GrantTimes(mode, before, k));
    }
  }

  // ---------- When the stores agree ----------

  /** The demonstration store still has keys of this challenge that Redis has dropped. */
  predicate Lingers(s: StoreState, q: Request, flow: string, id: Challenge)
    requires q in s.records && Flow(flow) in s.budgets
  {
    s.records[q].deleteAt <= s.now || s.budgets[Flow(flow)].expiresAt <= s.now
  }

  /**
   * The calls the stores answer differently: the challenge is current only thanks to a key that has run out,
   * and its state makes the demonstration store say more than that it is unavailable.
   */
  predicate Splits(d: StoreState, now: nat, op: Op) {
    var s := d.(now := Max(d.now, now));
    && !op.Reserve?
    && op.request in s.records && s.records[op.request].id == op.challenge && IsCurrent(s, op.flow, op.challenge)
    && Lingers(s, op.request, op.flow, op.challenge)
    && var r := s.records[op.request];
       r.expiresAt <= s.now || (if op.Activate? then r.phase == Pending else r.phase == Ready || r.phase == Locked)
  }

  /** States that differ in keys that have run out only. */
  predicate SameLive(d: StoreState, r: StoreState) {
    d.now == r.now && Sweep(d) == Sweep(r)
  }

  lemma LaterSameLive(d: StoreState, r: StoreState, now: nat)
    requires SameLive(d, r)
    ensures SameLive(d.(now := Max(d.now, now)), r.(now := Max(r.now, now)))
  {
    var t := Max(d.now, now);
    forall q
      ensures q in d.records && t < d.records[q].deleteAt <==> q in r.records && t < r.records[q].deleteAt
      ensures q in d.records && t < d.records[q].deleteAt ==> d.records[q] == r.records[q]
    {
      assert q in Sweep(d).records <==> q in Sweep(r).records;
    }
    forall k
      ensures k in d.budgets && t < d.budgets[k].expiresAt <==> k in r.budgets && t < r.budgets[k].expiresAt
      ensures k in d.budgets && t < d.budgets[k].expiresAt ==> d.budgets[k] == r.budgets[k]
    {
      assert k in Sweep(d).budgets <==> k in Sweep(r).budgets;
    }
  }

  /** In one state, the swept and the unswept store answer a call alike exactly when it does not split. */
  lemma UnsweptAnswers(s: StoreState, op: Op)
    requires !op.Reserve?
    ensures Operate(s, op).1 == Operate(Sweep(s), op).1 <==> !Splits(s, s.now, op)
  {
  }

  lemma SweptIsSameLive(s: StoreState)
    ensures SameLive(s, Sweep(s))
  {
    assert Sweep(Sweep(s)).records == Sweep(s).records;
    assert Sweep(Sweep(s)).budgets == Sweep(s).budgets;
  }

  function WithRecord(s: StoreState, q: Request, r: Record): StoreState {
    s.(records := s.records[q := r])
  }

  lemma WriteIsSameLive(s: StoreState, q: Request, r: Record)
    requires q in s.records && r.deleteAt == s.records[q].deleteAt && s.now < r.deleteAt
    ensures SameLive(WithRecord(s, q, r), WithRecord(Sweep(s), q, r))
  {
    assert Sweep(WithRecord(s, q, r)).records == Sweep(WithRecord(Sweep(s), q, r)).records;
    assert Sweep(WithRecord(s, q, r)).budgets == Sweep(WithRecord(Sweep(s), q, r)).budgets;
  }

  /** The call finds a live record of the current challenge. */
  ghost predicate Reaches(s: StoreState, op: Op)
    requires !op.Reserve?
  {
    && Obstacle(s, op.request, op.flow, op.challenge).None? && op.request in Sweep(s).records
    && IsCurrent(Sweep(s), op.flow, op.challenge)
  }

  /** A call that writes writes one record in place. */
  lemma CallWritesRecord(s: StoreState, op: Op)
    requires !op.Reserve?
    ensures var t := Operate(s, op).0;
            t == s || (Obstacle(s, op.request, op.flow, op.challenge).None? && op.request in t.records
                       && t == WithRecord(s, op.request, t.records[op.request])
                       && t.records[op.request].deleteAt == s.records[op.request].deleteAt)
    ensures Reaches(s, op) ==>
              var t, u := Operate(s, op).0, Operate(Sweep(s), op).0;
              if t == s then u == Sweep(s)
              else op.request in t.records && u == WithRecord(Sweep(s), op.request, t.records[op.request])
  {
  }

  lemma UnsweptMoves(s: StoreState, op: Op)
    requires !op.Reserve? && !Splits(s, s.now, op)
    ensures SameLive(Operate(s, op).0, Operate(Sweep(s), op).0)
  {
    SweptIsSameLive(s);
    CallWritesRecord(s, op);
    CallWritesRecord(Sweep(s), op);
    UnsweptAnswers(s, op);
    if Reaches(s, op) {
      if Operate(s, op).0 != s {
        WriteIsSameLive(s, op.request, Operate(s, op).0.records[op.request]);
      }
    } else {
      DeadCalls(s, op);
    }
  }

  lemma DeadCalls(s: StoreState, op: Op)
    requires !op.Reserve? && !Splits(s, s.now, op)
    requires !Reaches(s, op)
    ensures Operate(s, op).0 == s && Operate(Sweep(s), op).0 == Sweep(s)
  {
  }

  /** One call on two stores with the same live keys. */
  lemma StepAgrees(d: StoreState, r: StoreState, c: Call)
    requires SameLive(d, r)
    ensures Execute(Demo, d, c.time, c.op).1 == Execute(Redis, r, c.time, c.op).1 <==> !Splits(d, c.time, c.op)
    ensures !Splits(d, c.time, c.op) ==> SameLive(Execute(Demo, d, c.time, c.op).0, Execute(Redis, r, c.time, c.op).0)
  {
    LaterSameLive(d, r, c.time);
    var later := d.(now := Max(d.now, c.time));
    assert Advance(Redis, r, c.time, c.op) == Sweep(later);
    if c.op.Reserve? {
      assert Advance(Demo, d, c.time, c.op) == Sweep(later);
    } else {
      assert Advance(Demo, d, c.time, c.op) == later;
      UnsweptAnswers(later, c.op);
      if !Splits(later, later.now, c.op) {
        UnsweptMoves(later, c.op);
      }
    }
  }

  /** The answer to the call at position k of a run. */
  function Answer(mode: Mode, calls: seq<Call>, k: nat): Reply
    requires k < |calls|
  {
    Execute(mode, Run(mode, Initial(), calls[..k]), calls[k].time, calls[k].op).1
  }

  predicate SplitsAt(calls: seq<Call>, k: nat)
    requires k < |calls|
  {
    Splits(Run(Demo, Initial(), calls[..k]), calls[k].time, calls[k].op)
  }

  predicate NeverSplits(calls: seq<Call>) {
    forall k: nat :: k < |calls| ==> !SplitsAt(calls, k)
  }

  lemma SplitsEarlier(calls: seq<Call>, n: nat, k: nat)
    requires k < n <= |calls|
    ensures SplitsAt(calls[..n], k) == SplitsAt(calls, k)
  {
    assert calls[..n][..k] == calls[..k] && calls[..n][k] == calls[k];
  }

  lemma NeverSplitsBefore(calls: seq<Call>, n: nat)
    requires n <= |calls| && forall k: nat :: k < n ==> !SplitsAt(calls, k)
    ensures NeverSplits(calls[..n])
  {
    forall k: nat | k < n ensures !SplitsAt(calls[..n], k) {
      SplitsEarlier(calls, n, k);
    }
  }

  lemma {:induction false} UnsplitRunsAgree(calls: seq<Call>)
    requires NeverSplits(calls)
    ensures SameLive(Run(Demo, Initial(), calls), Run(Redis, Initial(), calls))
  {
    if calls != [] {
      var n := |calls| - 1;
      NeverSplitsBefore(calls, n);
      UnsplitRunsAgree(calls[..n]);
      assert !SplitsAt(calls, n);
      StepAgrees(Run(Demo, Initial(), calls[..n]), Run(Redis, Initial(), calls[..n]), calls[n]);
    }
  }

  /** From the same start the two stores answer alike up to the first call that splits them, and differ on that call. */
  lemma AgreeUpTo(calls: seq<Call>, k: nat)
    requires k < |calls| && forall i: nat :: i < k ==> !SplitsAt(calls, i)
    ensures Answer(Demo, calls, k) == Answer(Redis, calls, k) <==> !SplitsAt(calls, k)
  {
    NeverSplitsBefore(calls, k);
    UnsplitRunsAgree(calls[..k]);
    StepAgrees(Run(Demo, Initial(), calls[..k]), Run(Redis, Initial(), calls[..k]), calls[k]);
  }

  /** Two stores given the same calls answer every one of them alike exactly when no call splits them. */
  lemma StoresAgreeExactly(calls: seq<Call>)
    ensures (forall k: nat :: k < |calls| ==> Answer(Demo, calls, k) == Answer(Redis, calls, k)) <==> NeverSplits(calls)
  {
    if NeverSplits(calls) {
      forall k: nat | k < |calls| ensures Answer(Demo, calls, k) == Answer(Redis, calls, k) {
        AgreeUpTo(calls, k);
      }
    } else {
      var some: nat :| some < |calls| && SplitsAt(calls, some);
      var k := FirstSplit(calls, some);
      AgreeUpTo(calls, k);
    }
  }

  lemma {:induction false} FirstSplit(calls: seq<Call>, n: nat) returns (k: nat)
    requires n < |calls| && SplitsAt(calls, n)
    ensures k < |calls| && SplitsAt(calls, k) && forall i: nat :: i < k ==> !SplitsAt(calls, i)
  {
    if i: nat :| i < n && SplitsAt(calls, i) {
      k := FirstSplit(calls, i);
    } else {
      k := n;
    }
  }

  // ---------- Where the stores differ ----------

  /** A flow's window and the challenge it names. */
  predicate FlowIs(s: StoreState, flow: string, count: nat, id: Challenge, end: nat) {
    Flow(flow) in s.budgets && s.budgets[Flow(flow)].count == count && s.budgets[Flow(flow)].current == Some(id) &&
        s.budgets[Flow(flow)].expiresAt == end
  }

  /** A start within all limits is granted; the flow names its challenge and keeps the window it has. */
  lemma GrantNamesChallenge(a: StoreState, input: Reservation, end: nat)
    requires input.request !in a.records && forall k :: k in KeysOf(input) ==> CountOf(a, k) < Limit(k)
    requires end == if Flow(input.flow) in a.budgets then a.budgets[Flow(input.flow)].expiresAt else a.now + BUDGET_MS
    ensures var (t, reply) := ReserveChallenge(a, input);
            && reply.Reserved? && t.now == a.now && FlowIs(t, input.flow, CountOf(a, Flow(input.flow)) + 1,
                input.challenge, end)
            && (forall k :: CountOf(t, k) <= CountOf(a, k) + 1)
            && t.records == a.records[input.request := Record(Pending, input.challenge, input.fingerprint,
                a.now + LIFETIME_MS, a.now + BUDGET_MS, 0, None)]
  {
    RaisedCounts(a.budgets, KeysOf(input), a.now, Flow(input.flow));
    assert KeysOf(input)[0] == Flow(input.flow);
    forall k ensures CountOf(ReserveChallenge(a, input).0, k) <= CountOf(a, k) + 1 {
      RaisedCounts(a.budgets, KeysOf(input), a.now, k);
    }
  }

  const FIRST := Call(0, Reserve(Reservation("q0", "f", "a0", "w0", 0, "c0")))
  const SECOND := Call(86_399_000, Reserve(Reservation("q1", "f", "a1", "w1", 1, "c1")))
  const THIRD := Call(86_399_500, Activate("q1", "f", "c1", 7))

  lemma OneMoreCall(mode: Mode, s: StoreState, calls: seq<Call>, c: Call)
    ensures Run(mode, s, calls + [c]) == Execute(mode, Run(mode, s, calls), c.time, c.op).0
  {
    assert (calls + [c])[..|calls|] == calls;
  }

  predicate Started(s: StoreState) {
    s.now == 0 && FlowIs(s, "f", 1, "c0", BUDGET_MS) && "q1" !in s.records && CountsAtMostOne(s)
  }

  predicate CountsAtMostOne(s: StoreState) {
    forall k :: k in s.budgets ==> s.budgets[k].count == 1
  }

  predicate StartedTwice(s: StoreState) {
    && s.now == SECOND.time && FlowIs(s, "f", 2, "c1", BUDGET_MS) && "q1" in s.records
    && s.records["q1"] == Record(Pending, "c1", 1, SECOND.time + LIFETIME_MS, SECOND.time + BUDGET_MS, 0, None)
  }

  /** A challenge still running when its flow's window ends. */
  predicate LateChallenge(s: StoreState) {
    && s.now == THIRD.time && FlowIs(s, "f", 2, "c1", BUDGET_MS)
    && "q1" in s.records && s.records["q1"].id == "c1" && s.records["q1"].phase == Ready
    && s.records["q1"].expiresAt == SECOND.time + LIFETIME_MS
  }

  lemma AfterFirst(mode: Mode)
    ensures Started(Execute(mode, Initial(), FIRST.time, FIRST.op).0)
  {
    var a := Advance(mode, Initial(), FIRST.time, FIRST.op);
    GrantNamesChallenge(a, FIRST.op.input, BUDGET_MS);
    var s := ReserveChallenge(a, FIRST.op.input).0;
    forall k | k in s.budgets ensures s.budgets[k].count == 1 {
      assert CountOf(s, k) <= CountOf(a, k) + 1;
    }
  }

  lemma AfterSecond(mode: Mode, s: StoreState)
    requires Started(s)
    ensures StartedTwice(Execute(mode, s, SECOND.time, SECOND.op).0)
  {
    var a := Advance(mode, s, SECOND.time, SECOND.op);
    assert forall k :: k in KeysOf(SECOND.op.input) ==> CountOf(a, k) < Limit(k);
    GrantNamesChallenge(a, SECOND.op.input, BUDGET_MS);
  }

  lemma AfterThird(mode: Mode, s: StoreState)
    requires StartedTwice(s)
    ensures LateChallenge(Execute(mode, s, THIRD.time, THIRD.op).0)
  {
  }

  lemma StartedIsReachable(mode: Mode)
    ensures Started(Run(mode, Initial(), [FIRST]))
  {
    AfterFirst(mode);
    OneMoreCall(mode, Initial(), [], FIRST);
    assert [] + [FIRST] == [FIRST];
  }

  lemma StartedTwiceIsReachable(mode: Mode)
    ensures StartedTwice(Run(mode, Initial(), [FIRST, SECOND]))
  {
    StartedIsReachable(mode);
    AfterSecond(mode, Run(mode, Initial(), [FIRST]));
    OneMoreCall(mode, Initial(), [FIRST], SECOND);
    assert [FIRST] + [SECOND] == [FIRST, SECOND];
  }

  lemma LateChallengeIsReachable(mode: Mode)
    ensures LateChallenge(Run(mode, Initial(), [FIRST, SECOND, THIRD]))
  {
    StartedTwiceIsReachable(mode);
    AfterThird(mode, Run(mode, Initial(), [FIRST, SECOND]));
    OneMoreCall(mode, Initial(), [FIRST, SECOND], THIRD);
    assert [FIRST, SECOND] + [THIRD] == [FIRST, SECOND, THIRD];
  }

  /**
   * The stores are not equivalent: past the end of a flow's window Redis has forgotten its current challenge,
   * the demonstration store still verifies it. A run that tells them apart.
   */
  lemma StoresDiffer() returns (calls: seq<Call>, last: Call)
    ensures Execute(Redis, Run(Redis, Initial(), calls), last.time, last.op).1 == Refused(Unavailable)
    ensures Execute(Demo, Run(Demo, Initial(), calls), last.time, last.op).1 == Reply.Verified
  {
    calls, last := [FIRST, SECOND, THIRD], Call(86_400_500, Op.Verify("q1", "f", "c1", true));
    LateChallengeIsReachable(Redis);
    LateChallengeIsReachable(Demo);
    PastWindow(Run(Redis, Initial(), calls), Run(Demo, Initial(), calls), last.time);
  }

  lemma PastWindow(r: StoreState, d: StoreState, now: nat)
    requires LateChallenge(r) && LateChallenge(d) && BUDGET_MS <= now < SECOND.time + LIFETIME_MS
    ensures Execute(Redis, r, now, Op.Verify("q1", "f", "c1", true)).1 == Refused(Unavailable)
    ensures Execute(Demo, d, now, Op.Verify("q1", "f", "c1", true)).1 == Reply.Verified
  {
  }
}
