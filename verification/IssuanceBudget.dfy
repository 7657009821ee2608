/**
 * The daily gas ledger of the issuers, one script call at a time (pipeline/issuance-budget.ts, lines 27-82).
 * Limits are those the service was configured with; every number is a safe integer in the source, and
 * a sum past that range is past the limit too.
 */
module IssuanceBudget {
  import opened Prelude

  type Issuer = nat
  type Request = nat

  const DAY_MS := 86_400_000
  const KEPT_MS := 172_800_000

  datatype Limits = Limits(gas: nat, tx: nat)

  datatype Ledger = Ledger(day: nat, gas: int, tx: int, expiresAt: nat)

  datatype Reservation = Reservation(
    issuer: Issuer, day: nat, reserved: int, used: Option<int>, ledgerGas: int, ledgerTx: int, expiresAt: Option<nat>)

  datatype BudgetState = BudgetState(now: nat, ledgers: map<Issuer, Ledger>, records: map<Request, Reservation>)

  datatype Op = Status(issuer: Issuer) | Reserve(issuer: Issuer, request: Request, amount: int)
      | Reconcile(issuer: Issuer, request: Request, amount: int)

  datatype Denial =
    | InvalidInput | RequestConflict | GasExceeded | TransactionsExceeded
    | ReservationMissing | ActualExceedsReservation | StateInvalid

  datatype Reply = Totals(gas: int, tx: int) | Done | Denied(why: Denial)

  function Day(now: nat): nat {
    now / DAY_MS
  }

  // ---------- Specification of one call ----------

  predicate Kept(r: Reservation, now: nat) {
    r.expiresAt.None? || now < r.expiresAt.value
  }

  function Advance(s: BudgetState, now: nat): BudgetState {
    var t := Max(s.now, now);
    BudgetState(t,
      map i | i in s.ledgers && t < s.ledgers[i].expiresAt :: s.ledgers[i],
      map q | q in s.records && Kept(s.records[q], t) :: s.records[q])
  }

  /** What the ledger shows for today. */
  function Today(s: BudgetState, i: Issuer): Ledger {
    if i in s.ledgers && s.ledgers[i].day == Day(s.now) then s.ledgers[i]
    else Ledger(Day(s.now), 0, 0, (Day(s.now) + 3) * DAY_MS)
  }

  function ReserveGas(s: BudgetState, l: Limits, i: Issuer, q: Request, amount: int): (BudgetState, Reply) {
    var today := Today(s, i);
    if q in s.records then
      var r := s.records[q];
      (s, if r.issuer != i || r.reserved != amount then Denied(RequestConflict) else Totals(r.ledgerGas, r.ledgerTx))
    else if amount <= 0 || amount > l.gas || today.gas + amount > l.gas then (s, Denied(GasExceeded))
    else if today.tx + 1 > l.tx then (s, Denied(TransactionsExceeded))
    else
      var next := Ledger(Day(s.now), today.gas + amount, today.tx + 1, (Day(s.now) + 3) * DAY_MS);
      (s.(ledgers := s.ledgers[i := next],
          records := s.records[q := Reservation(i, Day(s.now), amount, None, next.gas, next.tx, None)]),
       Totals(next.gas, next.tx))
  }

  function ReconcileGas(s: BudgetState, i: Issuer, q: Request, amount: int): (BudgetState, Reply) {
    if q !in s.records then (s, Denied(ReservationMissing))
    else
      var r := s.records[q];
      if r.issuer != i then (s, Denied(RequestConflict))
      else if amount > r.reserved then (s, Denied(ActualExceedsReservation))
      else if r.used.Some? then (s, if r.used.value != amount then Denied(RequestConflict) else Done)
      else
        var counted := i in s.ledgers && s.ledgers[i].day == Day(s.now) && r.day == Day(s.now);
        if counted && s.ledgers[i].gas - r.reserved + amount < 0 then (s, Denied(StateInvalid))
        else
          (s.(ledgers := if counted then s.ledgers[i := s.ledgers[i].(gas := s.ledgers[i].gas - r.reserved + amount)]
              else s.ledgers,
              records := s.records[q := r.(used := Some(amount), expiresAt := Some(s.now + KEPT_MS))]),
           Done)
  }

  function Execute(s: BudgetState, l: Limits, now: nat, op: Op): (BudgetState, Reply) {
    var t := Advance(s, now);
    match op
    case Status(i) => (t, Totals(Today(t, i).gas, Today(t, i).tx))
    case Reserve(i, q, amount) => if amount < 0 then (t, Denied(InvalidInput)) else ReserveGas(t, l, i, q, amount)
    case Reconcile(i, q, amount) => if amount < 0 then (t, Denied(InvalidInput)) else ReconcileGas(t, i, q, amount)
  }

  // ---------- The script, key by key ----------

  class RedisBudget {
    const limits: Limits
    var now: nat
    var ledgers: map<Issuer, Ledger>
    var records: map<Request, Reservation>

    ghost function State(): BudgetState
      reads this
    {
      BudgetState(now, ledgers, records)
    }

    constructor (limits: Limits)
      ensures State() == BudgetState(0, map[], map[]) && this.limits == limits
    {
      this.limits := limits;
      now, ledgers, records := 0, map[], map[];
    }

    method Run(time: nat, op: Op) returns (reply: Reply)
      modifies this`now, this`ledgers, this`records
      ensures (State(), reply) == Execute(old(State()), limits, time, op)
    {
      now := Max(now, time);
      ledgers := map i | i in ledgers && now < ledgers[i].expiresAt :: ledgers[i];
      records := map q | q in records && Kept(records[q], now) :: records[q];
      var day := Day(now);
      var current := op.issuer in ledgers && ledgers[op.issuer].day == day;
      var totalGas, totalTx := 0, 0;
      if current {
        totalGas, totalTx := ledgers[op.issuer].gas, ledgers[op.issuer].tx;
      }
      if op.Status? {
        return Totals(totalGas, totalTx);
      }
      var q, amount := op.request, op.amount;
      if amount < 0 {
        return Denied(InvalidInput);
      }
      if op.Reserve? {
        if q in records {
          if records[q].issuer != op.issuer || records[q].reserved != amount {
            return Denied(RequestConflict);
          }
          return Totals(records[q].ledgerGas, records[q].ledgerTx);
        }
        if amount <= 0 || amount > limits.gas {
          return Denied(GasExceeded);
        }
        if totalGas + amount > limits.gas {
          return Denied(GasExceeded);
        }
        if totalTx + 1 > limits.tx {
          return Denied(TransactionsExceeded);
        }
        totalGas, totalTx := totalGas + amount, totalTx + 1;
        ledgers := ledgers[op.issuer := Ledger(day, totalGas, totalTx, (day + 3) * DAY_MS)];
        records := records[q := Reservation(op.issuer, day, amount, None, totalGas, totalTx, None)];
        return Totals(totalGas, totalTx);
      }
      reply := Correct(op.issuer, q, amount, totalGas, current);
    }

    method Correct(i: Issuer, q: Request, amount: int, totalGas: int, current: bool) returns (reply: Reply)
      requires current == (i in ledgers && ledgers[i].day == Day(now)) && (current ==> totalGas == ledgers[i].gas)
      modifies this`ledgers, this`records
      ensures (State(), reply) == ReconcileGas(old(State()), i, q, amount)
    {
      if q !in records {
        return Denied(ReservationMissing);
      }
      if records[q].issuer != i {
        return Denied(RequestConflict);
      }
      if amount > records[q].reserved {
        return Denied(ActualExceedsReservation);
      }
      if records[q].used.Some? {
        if records[q].used.value != amount {
          return Denied(RequestConflict);
        }
        return Done;
      }
      if current && records[q].day == Day(now) {
        var left := totalGas - records[q].reserved + amount;
        if left < 0 {
          return Denied(StateInvalid);
        }
        ledgers := ledgers[i := ledgers[i].(gas := left)];
      }
      records := records[q := records[q].(used := Some(amount), expiresAt := Some(now + KEPT_MS))];
      return Done;
    }
  }

  // ---------- What the ledger should show ----------

  /** Gas a reservation counts for: what was used once that is known. */
  function Charge(r: Reservation): int {
    if r.used.Some? then r.used.value else r.reserved
  }

  ghost function Total(m: map<Request, Reservation>): (sum: int) {
    if m == map[] then 0
    else
      var q :| q in m;
      Charge(m[q]) + Total(m - {q})
  }

  lemma {:induction false} TotalSplits(m: map<Request, Reservation>, q: Request)
    requires q in m
    ensures Total(m) == Charge(m[q]) + Total(m - {q})
    decreases m
  {
    var p :| p in m && Total(m) == Charge(m[p]) + Total(m - {p});
    if p != q {
      TotalSplits(m - {p}, q);
      TotalSplits(m - {q}, p);
      assert m - {p} - {q} == m - {q} - {p};
    }
  }

  lemma {:induction false} TotalNonNegative(m: map<Request, Reservation>)
    requires forall q :: q in m ==> Charge(m[q]) >= 0
    ensures Total(m) >= 0
    decreases m
  {
    if m != map[] {
      var p :| p in m && Total(m) == Charge(m[p]) + Total(m - {p});
      TotalNonNegative(m - {p});
    }
  }

  /** The reservations of one issuer made on one day and still on record. */
  function Counted(s: BudgetState, i: Issuer, day: nat): map<Request, Reservation> {
    map q | q in s.records && s.records[q].issuer == i && s.records[q].day == day :: s.records[q]
  }

  predicate ReservationOk(r: Reservation, now: nat) {
    && 0 < r.reserved && r.day <= Day(now)
    && (r.used.None? <==> r.expiresAt.None?)
    && (r.used.Some? ==> 0 <= r.used.value <= r.reserved && r.expiresAt.value >= r.day * DAY_MS + KEPT_MS)
  }

  /** The ledger of today is the sum and the number of today's reservations, and within both limits. */
  ghost predicate Balanced(s: BudgetState, l: Limits, i: Issuer) {
    var today := Today(s, i);
    && today.gas == Total(Counted(s, i, Day(s.now))) && today.tx == |Counted(s, i, Day(s.now))|
    && today.gas <= l.gas && today.tx <= l.tx
  }

  ghost predicate Inv(s: BudgetState, l: Limits) {
    && (forall i :: i in s.ledgers ==>
          s.ledgers[i].day <= Day(s.now) && s.ledgers[i].expiresAt == (s.ledgers[i].day + 3) * DAY_MS)
    && (forall q :: q in s.records ==> ReservationOk(s.records[q], s.now))
    && (forall i: Issuer :: Balanced(s, l, i))
  }

  lemma DayBounds(now: nat)
    ensures Day(now) * DAY_MS <= now < (Day(now) + 1) * DAY_MS
  {
  }

  lemma DayMonotone(a: nat, b: nat)
    requires a <= b
    ensures Day(a) <= Day(b)
  {
  }

  /** No reservation of the current day has expired, nor has its ledger. */
  lemma NothingOfTodayExpires(s: BudgetState, l: Limits, now: nat)
    requires Inv(s, l)
    ensures var t := Max(s.now, now);
            && (forall i :: i in s.ledgers && s.ledgers[i].day == Day(t) ==> t < s.ledgers[i].expiresAt)
            && (forall q :: q in s.records && s.records[q].day == Day(t) ==> Kept(s.records[q], t))
  {
    var t := Max(s.now, now);
    DayBounds(t);
    forall q | q in s.records && s.records[q].day == Day(t) ensures Kept(s.records[q], t) {
      assert ReservationOk(s.records[q], s.now);
    }
  }

  lemma AdvanceKeepsInv(s: BudgetState, l: Limits, now: nat)
    requires Inv(s, l)
    ensures Inv(Advance(s, now), l)
  {
    var t := Advance(s, now);
    DayMonotone(s.now, t.now);
    NothingOfTodayExpires(s, l, now);
    forall i: Issuer ensures Balanced(t, l, i) {
      assert Balanced(s, l, i);
      if Day(t.now) == Day(s.now) {
        assert Counted(t, i, Day(t.now)) == Counted(s, i, Day(t.now));
      } else {
        assert forall q :: q in s.records ==> ReservationOk(s.records[q], s.now);
        assert Counted(t, i, Day(t.now)) == map[];
      }
    }
  }

  lemma TotalAdds(m: map<Request, Reservation>, q: Request, r: Reservation)
    requires q !in m
    ensures Total(m[q := r]) == Total(m) + Charge(r) && |m[q := r]| == |m| + 1
  {
    TotalSplits(m[q := r], q);
    assert m[q := r] - {q} == m;
    assert m[q := r].Keys == m.Keys + {q};
  }

  /** The sum over a day's reservations with one added. */
  lemma Added(s: BudgetState, t: BudgetState, i: Issuer, q: Request, day: nat)
    requires q !in s.records && q in t.records && t.records == s.records[q := t.records[q]] &&
        t.records[q].issuer == i && t.records[q].day == day
    ensures Total(Counted(t, i, day)) == Total(Counted(s, i, day)) + Charge(t.records[q])
    ensures |Counted(t, i, day)| == |Counted(s, i, day)| + 1
  {
    assert q !in Counted(s, i, day);
    assert Counted(t, i, day) == Counted(s, i, day)[q := t.records[q]];
    TotalAdds(Counted(s, i, day), q, t.records[q]);
  }

  /** A granted reservation adds itself to today's sum of its issuer and to no other. */
  lemma ReserveBalances(s: BudgetState, l: Limits, t: BudgetState, i: Issuer, q: Request, amount: int, k: Issuer)
    requires Balanced(s, l, k) && q !in s.records && t == ReserveGas(s, l, i, q, amount).0 && q in t.records
    ensures Balanced(t, l, k)
  {
    if k == i {
      Added(s, t, i, q, Day(s.now));
    } else {
      OtherIssuerStays(s, t, i, q, k);
    }
  }

  lemma OtherIssuerStays(s: BudgetState, t: BudgetState, i: Issuer, q: Request, k: Issuer)
    requires k != i && q !in s.records && q in t.records && t.records == s.records[q := t.records[q]]
    requires t.records[q].issuer == i && t.now == s.now
    ensures Counted(t, k, Day(s.now)) == Counted(s, k, Day(s.now))
  {
  }

  lemma ReserveKeepsInv(s: BudgetState, l: Limits, i: Issuer, q: Request, amount: int)
    requires Inv(s, l) && amount >= 0
    ensures Inv(ReserveGas(s, l, i, q, amount).0, l)
  {
    var t := ReserveGas(s, l, i, q, amount).0;
    if q !in s.records && q in t.records {
      assert ReservationOk(t.records[q], t.now);
      forall k: Issuer ensures Balanced(t, l, k) {
        assert Balanced(s, l, k);
        ReserveBalances(s, l, t, i, q, amount, k);
      }
    }
  }

  /** The sum over today's reservations with one of them re-priced. */
  lemma Repriced(s: BudgetState, t: BudgetState, i: Issuer, q: Request, day: nat)
    requires q in s.records && s.records[q].issuer == i && s.records[q].day == day
    requires q in t.records && t.records[q].issuer == i && t.records[q].day == day
    requires t.records.Keys == s.records.Keys && forall p :: p in s.records && p != q ==> t.records[p] == s.records[p]
    ensures Total(Counted(t, i, day)) == Total(Counted(s, i, day)) - Charge(s.records[q]) + Charge(t.records[q])
    ensures |Counted(t, i, day)| == |Counted(s, i, day)|
  {
    TotalSplits(Counted(s, i, day), q);
    TotalSplits(Counted(t, i, day), q);
    assert Counted(s, i, day) - {q} == Counted(t, i, day) - {q};
    assert Counted(s, i, day).Keys == Counted(t, i, day).Keys;
  }

  /** What stays of today's sum when one reservation is re-priced is not negative. */
  lemma RestNonNegative(s: BudgetState, l: Limits, i: Issuer, q: Request)
    requires Inv(s, l) && q in s.records && s.records[q].issuer == i && s.records[q].day == Day(s.now)
    ensures Total(Counted(s, i, Day(s.now))) - Charge(s.records[q]) >= 0
    ensures i in s.ledgers && s.ledgers[i].day == Day(s.now)
  {
    var m := Counted(s, i, Day(s.now));
    TotalSplits(m, q);
    forall p | p in m ensures Charge(m[p]) >= 0 {
      assert ReservationOk(s.records[p], s.now);
    }
    TotalNonNegative(m - {q});
    assert Balanced(s, l, i);
    assert q in m.Keys;
  }

  lemma ReconcileKeepsInv(s: BudgetState, l: Limits, i: Issuer, q: Request, amount: int)
    requires Inv(s, l) && amount >= 0
    ensures Inv(ReconcileGas(s, i, q, amount).0, l)
    ensures ReconcileGas(s, i, q, amount).1 != Denied(StateInvalid)
  {
    if q in s.records && s.records[q].issuer == i && amount <= s.records[q].reserved && s.records[q].used.None? {
      var r := s.records[q];
      assert ReservationOk(r, s.now);
      if r.day == Day(s.now) {
        RestNonNegative(s, l, i, q);
        assert Balanced(s, l, i);
      }
      var (t, reply) := ReconcileGas(s, i, q, amount);
      DayBounds(s.now);
      assert ReservationOk(t.records[q], t.now);
      forall k: Issuer ensures Balanced(t, l, k) {
        ReconcileBalances(s, l, t, i, q, amount, k);
      }
    }
  }

  lemma ReconcileBalances(s: BudgetState, l: Limits, t: BudgetState, i: Issuer, q: Request, amount: int, k: Issuer)
    requires Inv(s, l) && ReconcileGas(s, i, q, amount) == (t, Done)
    requires q in s.records && s.records[q].issuer == i && amount <= s.records[q].reserved && s.records[q].used.None?
    requires s.records[q].day == Day(s.now) ==> i in s.ledgers && s.ledgers[i].day == Day(s.now)
    ensures Balanced(t, l, k)
  {
    var day := Day(s.now);
    assert Balanced(s, l, k);
    if k == i && s.records[q].day == day {
      Repriced(s, t, i, q, day);
    } else {
      assert Counted(t, k, day) == Counted(s, k, day);
    }
  }

  lemma StepKeepsInv(s: BudgetState, l: Limits, now: nat, op: Op)
    requires Inv(s, l)
    ensures Inv(Execute(s, l, now, op).0, l) && Execute(s, l, now, op).1 != Denied(StateInvalid)
  {
    AdvanceKeepsInv(s, l, now);
    var t := Advance(s, now);
    match op {
      case Status(_) =>
      case Reserve(i, q, amount) => if amount >= 0 { ReserveKeepsInv(t, l, i, q, amount); }
      case Reconcile(i, q, amount) => if amount >= 0 { ReconcileKeepsInv(t, l, i, q, amount); }
    }
  }

  // ---------- Over every run ----------

  /** Calls in the order the server serves them; its clock never runs backwards. */
  datatype Call = Call(time: nat, op: Op)

  function Run(s: BudgetState, l: Limits, calls: seq<Call>): BudgetState {
    if calls == [] then s
    else Execute(Run(s, l, calls[..|calls| - 1]), l, calls[|calls| - 1].time, calls[|calls| - 1].op).0
  }

  function Initial(): BudgetState {
    BudgetState(0, map[], map[])
  }

  lemma {:induction false} RunKeepsInv(l: Limits, calls: seq<Call>)
    ensures Inv(Run(Initial(), l, calls), l)
  {
    if calls == [] {
      forall i: Issuer ensures Balanced(Initial(), l, i) {
        assert Counted(Initial(), i, 0) == map[];
      }
    } else {
      var n := |calls| - 1;
      RunKeepsInv(l, calls[..n]);
      StepKeepsInv(Run(Initial(), l, calls[..n]), l, calls[n].time, calls[n].op);
    }
  }

  /**
   * After any calls, whatever status would answer at any later moment of the server clock is exactly the
   * sum and the number of that day's reservations of the issuer, and neither limit is exceeded.
   */
  lemma LedgerIsConserved(l: Limits, calls: seq<Call>, now: nat, i: Issuer)
    ensures var (s, reply) := Execute(Run(Initial(), l, calls), l, now, Status(i));
            && reply == Totals(Total(Counted(s, i, Day(s.now))), |Counted(s, i, Day(s.now))|)
            && 0 <= reply.gas <= l.gas && 0 <= reply.tx <= l.tx
  {
    RunKeepsInv(l, calls);
    StepKeepsInv(Run(Initial(), l, calls), l, now, Status(i));
    var s := Execute(Run(Initial(), l, calls), l, now, Status(i)).0;
    assert Balanced(s, l, i);
    forall q | q in Counted(s, i, Day(s.now)) ensures Charge(s.records[q]) >= 0 {
      assert ReservationOk(s.records[q], s.now);
    }
    TotalNonNegative(Counted(s, i, Day(s.now)));
  }

  /** The script's own consistency failure never happens. */
  lemma StateInvalidIsUnreachable(l: Limits, calls: seq<Call>, call: Call)
    ensures Execute(Run(Initial(), l, calls), l, call.time, call.op).1 != Denied(StateInvalid)
  {
    RunKeepsInv(l, calls);
    StepKeepsInv(Run(Initial(), l, calls), l, call.time, call.op);
  }

  // ---------- Replays ----------

  /** A reservation as it was granted, whatever became of it since; kept two days past `since` at least. */
  predicate Granted(s: BudgetState, q: Request, r: Reservation, since: nat) {
    && q in s.records
    && s.records[q] == r.(used := s.records[q].used, expiresAt := s.records[q].expiresAt)
    && (s.records[q].expiresAt.Some? ==> s.records[q].expiresAt.value >= since + KEPT_MS)
    && since <= s.now
  }

  lemma GrantStays(s: BudgetState, l: Limits, now: nat, op: Op, q: Request, r: Reservation, since: nat)
    requires Granted(s, q, r, since) && Max(s.now, now) < since + KEPT_MS
    ensures Granted(Execute(s, l, now, op).0, q, r, since)
  {
  }

  lemma TimeGrows(s: BudgetState, l: Limits, now: nat, op: Op)
    ensures Execute(s, l, now, op).0.now == Max(s.now, now)
  {
  }

  lemma {:induction false} GrantStaysOverRun(s: BudgetState, l: Limits, calls: seq<Call>, q: Request, r: Reservation,
      since: nat)
    requires Granted(s, q, r, since) && Run(s, l, calls).now < since + KEPT_MS
    ensures Granted(Run(s, l, calls), q, r, since)
  {
    if calls != [] {
      var n := |calls| - 1;
      TimeGrows(Run(s, l, calls[..n]), l, calls[n].time, calls[n].op);
      GrantStaysOverRun(s, l, calls[..n], q, r, since);
      GrantStays(Run(s, l, calls[..n]), l, calls[n].time, calls[n].op, q, r, since);
    }
  }

  /**
   * For two days after a reservation was granted, and whatever calls come between, asking for it again
   * gets the first answer and changes no ledger and no reservation.
   */
  lemma ReserveReplays(s: BudgetState, l: Limits, first: Call, calls: seq<Call>, again: nat)
    requires first.op.Reserve?
    requires var (t, reply) := Execute(s, l, first.time, first.op);
             reply.Totals? && Max(Run(t, l, calls).now, again) < t.now + KEPT_MS
             && (first.op.request in s.records ==> !Kept(s.records[first.op.request], t.now))
    ensures var (t, reply) := Execute(s, l, first.time, first.op);
            var u := Run(t, l, calls);
            Execute(u, l, again, first.op) == (Advance(u, again), reply)
  {
    var (t, reply) := Execute(s, l, first.time, first.op);
    var q := first.op.request;
    TimeGrows(s, l, first.time, first.op);
    GrantStaysOverRun(t, l, calls, q, t.records[q], t.now);
  }

  /** While its outcome is unknown a reservation stays on record untouched, however long that takes. */
  lemma {:induction false} UnreconciledIsDurable(s: BudgetState, l: Limits, calls: seq<Call>, q: Request)
    requires q in s.records && s.records[q].expiresAt.None?
    requires forall c :: c in calls ==> !(c.op.Reconcile? && c.op.request == q)
    ensures q in Run(s, l, calls).records && Run(s, l, calls).records[q] == s.records[q]
  {
    if calls != [] {
      var n := |calls| - 1;
      UnreconciledIsDurable(s, l, calls[..n], q);
      assert calls[n] in calls;
      UnreconciledStep(Run(s, l, calls[..n]), l, calls[n], q);
    }
  }

  lemma UnreconciledStep(s: BudgetState, l: Limits, c: Call, q: Request)
    requires q in s.records && s.records[q].expiresAt.None? && !(c.op.Reconcile? && c.op.request == q)
    ensures var t := Execute(s, l, c.time, c.op).0; q in t.records && t.records[q] == s.records[q]
  {
  }

  /** A reconciled reservation, kept two days past `since`. */
  predicate Reconciled(s: BudgetState, i: Issuer, q: Request, amount: int, since: nat) {
    && q in s.records && s.records[q].issuer == i && s.records[q].used == Some(amount) &&
        amount <= s.records[q].reserved
    && s.records[q].expiresAt.Some? && s.records[q].expiresAt.value >= since + KEPT_MS
  }

  lemma {:induction false} ReconciledStays(s: BudgetState, l: Limits, calls: seq<Call>, i: Issuer, q: Request,
      amount: int, since: nat)
    requires Reconciled(s, i, q, amount, since) && Run(s, l, calls).now < since + KEPT_MS
    ensures Reconciled(Run(s, l, calls), i, q, amount, since)
  {
    if calls != [] {
      var n := |calls| - 1;
      TimeGrows(Run(s, l, calls[..n]), l, calls[n].time, calls[n].op);
      ReconciledStays(s, l, calls[..n], i, q, amount, since);
      ReconciledStep(Run(s, l, calls[..n]), l, calls[n], i, q, amount, since);
    }
  }

  lemma ReconciledStep(s: BudgetState, l: Limits, c: Call, i: Issuer, q: Request, amount: int, since: nat)
    requires Reconciled(s, i, q, amount, since) && Execute(s, l, c.time, c.op).0.now < since + KEPT_MS
    ensures Reconciled(Execute(s, l, c.time, c.op).0, i, q, amount, since)
  {
  }

  /** For two days after the gas used was recorded, recording it again succeeds and changes nothing. */
  lemma ReconcileReplays(s: BudgetState, l: Limits, first: Call, calls: seq<Call>, again: nat)
    requires first.op.Reconcile?
    requires var (t, reply) := Execute(s, l, first.time, first.op);
             reply == Done && Max(Run(t, l, calls).now, again) < t.now + KEPT_MS
             && first.op.request in s.records && s.records[first.op.request].used.None?
    ensures var (t, reply) := Execute(s, l, first.time, first.op);
            var u := Run(t, l, calls);
            Execute(u, l, again, first.op) == (Advance(u, again), Done)
  {
    var t := Execute(s, l, first.time, first.op).0;
    TimeGrows(s, l, first.time, first.op);
    ReconciledStays(t, l, calls, first.op.issuer, first.op.request, first.op.amount, t.now);
  }
}
