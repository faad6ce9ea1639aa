/**
 The budget guard (shared/ai_budget.py): what a period has spent, how stale reservations
 expire, and the reservation that admits or rejects one call.

 Instants are microseconds. A rejected reservation raises before the session commits, so it
 is modelled as leaving the ledger as it was.
 */
module AiBudget {
  import opened Wrappers
  import opened Sums
  import opened AiCost

  const SECOND: int := 1000000
  const RESERVATION_FEATURE: string := "__budget_reservation__"

  /** Maps an instant to the start of the period it lies in. */
  type PeriodStart = int -> int

  datatype Period = Daily | Monthly

  datatype Settings = Settings(
    dailyBudget: real, monthlyBudget: real, hardLimit: bool,
    reserveOutputTokens: int, reservationTimeout: int,
    dayStart: PeriodStart, monthStart: PeriodStart, pricing: Pricing)
  {
    function Limit(period: Period): Money {
      var budget := if period == Daily then dailyBudget else monthlyBudget;
      if budget < 0.0 then 0.0 else budget
    }

    function Start(period: Period): PeriodStart {
      if period == Daily then dayStart else monthStart
    }

    predicate Active(period: Period) { Limit(period) != 0.0 }

    /** A period starts at or before the instants that lie in it. */
    ghost predicate CalendarIsLawful() {
      && (forall t :: dayStart(t) <= t)
      && (forall t :: monthStart(t) <= t)
    }

    function ReserveOutput(): nat { NonNegative(reserveOutputTokens) }

    function Cutoff(now: int): int {
      now - (if reservationTimeout < 60 then 60 else reservationTimeout) * SECOND
    }
  }

  // ----- Spending -----

  /** A rejected call never reached a provider, so the guard does not charge it. */
  predicate RejectedBeforeProvider(row: Row) {
    row.errorType == BudgetUnpriced || row.errorType == BudgetConfiguration
  }

  predicate Stale(cfg: Settings, row: Row, now: int) {
    row.status == RESERVED && row.createdAt < cfg.Cutoff(now)
  }

  predicate Counted(cfg: Settings, row: Row, start: int, now: int) {
    row.createdAt >= start && !RejectedBeforeProvider(row) && !Stale(cfg, row, now)
  }

  ghost function SpentWeight(cfg: Settings, start: int, now: int): Row -> real {
    (row: Row) => if Counted(cfg, row, start, now) then CostOrZero(cfg.pricing, row) else 0.0
  }

  ghost function Spent(cfg: Settings, rows: seq<Row>, start: int, now: int): real {
    Sum(rows, SpentWeight(cfg, start, now))
  }

  function Unpriced(cfg: Settings, rows: seq<Row>, start: int, now: int): nat {
    if rows == [] then 0
    else
      var row := rows[|rows| - 1];
      Unpriced(cfg, rows[..|rows| - 1], start, now)
      + if Counted(cfg, row, start, now) && RowCost(cfg.pricing, row) == None then 1 else 0
  }

  method SpentSince(cfg: Settings, rows: seq<Row>, start: int, now: int) returns (spent: real, unpriced: nat)
    ensures spent == Spent(cfg, rows, start, now)
    ensures unpriced == Unpriced(cfg, rows, start, now)
  {
    spent, unpriced := 0.0, 0;
    for i := 0 to |rows|
      invariant spent == Spent(cfg, rows[..i], start, now)
      invariant unpriced == Unpriced(cfg, rows[..i], start, now)
    {
      var row := rows[i];
      SumPrefix(rows, i, SpentWeight(cfg, start, now));
      assert rows[..i + 1][..i] == rows[..i];
      if row.createdAt >= start {
        if !RejectedBeforeProvider(row) {
          if !(row.status == RESERVED && row.createdAt < cfg.Cutoff(now)) {
            match RowCost(cfg.pricing, row) {
              case None => unpriced := unpriced + 1;
              case Some(cost) => spent := spent + cost;
            }
          }
        }
      }
    }
    assert rows[..|rows|] == rows;
  }

  // ----- Expiry -----

  function ExpireRow(cfg: Settings, row: Row, now: int): Row {
    if Stale(cfg, row, now) then row.(status := ERROR, errorType := ReservationExpired) else row
  }

  function Expire(cfg: Settings, rows: seq<Row>, now: int): (expired: seq<Row>)
    ensures |expired| == |rows|
    ensures forall i :: 0 <= i < |rows| ==> expired[i] == ExpireRow(cfg, rows[i], now)
  {
    if rows == [] then []
    else Expire(cfg, rows[..|rows| - 1], now) + [ExpireRow(cfg, rows[|rows| - 1], now)]
  }

  method ExpireStaleReservations(cfg: Settings, session: seq<Row>, now: int) returns (rows: seq<Row>)
    ensures rows == Expire(cfg, session, now)
  {
    rows := session;
    for i := 0 to |rows|
      invariant |rows| == |session|
      invariant forall j :: 0 <= j < i ==> rows[j] == ExpireRow(cfg, session[j], now)
      invariant forall j :: i <= j < |rows| ==> rows[j] == session[j]
    {
      if rows[i].status == RESERVED && rows[i].createdAt < cfg.Cutoff(now) {
        rows := rows[i := rows[i].(status := ERROR, errorType := ReservationExpired)];
      }
    }
    assert rows == Expire(cfg, session, now);
  }

  /** The cost of the rows that ``status`` passes over because they are stale but not yet expired. */
  ghost function StaleWeight(cfg: Settings, start: int, now: int): Row -> real {
    (row: Row) => if row.createdAt >= start && Stale(cfg, row, now) then CostOrZero(cfg.pricing, row) else 0.0
  }

  /**
   What a reservation charges is what ``status`` shows plus every stale reservation not yet
   expired: expiry keeps the charge. The comment on the timeout setting says that expired
   reservations are excluded from accounting, which only ``status`` does, and only until then.
   */
  lemma {:induction false} ReservePathSpend(cfg: Settings, rows: seq<Row>, start: int, now: int)
    ensures Spent(cfg, Expire(cfg, rows, now), start, now)
         == Spent(cfg, rows, start, now) + Sum(rows, StaleWeight(cfg, start, now))
  {
    if rows != [] {
      ReservePathSpend(cfg, rows[..|rows| - 1], start, now);
      SumSnoc(Expire(cfg, rows[..|rows| - 1], now), ExpireRow(cfg, rows[|rows| - 1], now),
        SpentWeight(cfg, start, now));
    }
  }

  lemma ExpiryNeverLowersSpend(cfg: Settings, rows: seq<Row>, start: int, now: int)
    ensures Spent(cfg, rows, start, now) <= Spent(cfg, Expire(cfg, rows, now), start, now)
  {
    ReservePathSpend(cfg, rows, start, now);
    SumIsNonnegative(rows, StaleWeight(cfg, start, now));
  }

  /** The two sums differ exactly when a stale reservation of the period costs something. */
  lemma ReservePathDiffersIff(cfg: Settings, rows: seq<Row>, start: int, now: int)
    ensures Spent(cfg, Expire(cfg, rows, now), start, now) != Spent(cfg, rows, start, now)
      <==> exists row ::
             row in rows && row.createdAt >= start && Stale(cfg, row, now) && CostOrZero(cfg.pricing, row) > 0.0
  {
    ReservePathSpend(cfg, rows, start, now);
    SumIsNonnegative(rows, StaleWeight(cfg, start, now));
    forall row | row in rows
      ensures StaleWeight(cfg, start, now)(row) != 0.0
        <==> row.createdAt >= start && Stale(cfg, row, now) && CostOrZero(cfg.pricing, row) > 0.0
    {
    }
  }

  /** A ledger on which they differ: one reservation, a second older than the timeout. */
  lemma StaleReservationIsStillCharged(cfg: Settings, provider: string, model: string, inputChars: int, start: int,
      now: int)
    requires var stale := Reservation(cfg, "a", provider, model, inputChars, cfg.Cutoff(now) - SECOND);
      CostOrZero(cfg.pricing, stale) > 0.0 && start <= stale.createdAt
    ensures var rows := [Reservation(cfg, "a", provider, model, inputChars, cfg.Cutoff(now) - SECOND)];
      Spent(cfg, rows, start, now) == 0.0 && Spent(cfg, Expire(cfg, rows, now), start, now) > 0.0
  {
    var rows := [Reservation(cfg, "a", provider, model, inputChars, cfg.Cutoff(now) - SECOND)];
    assert rows[..0] == [] && rows[0] in rows;
    assert Spent(cfg, rows[..0], start, now) == 0.0;
    ExpiryNeverLowersSpend(cfg, rows, start, now);
    ReservePathDiffersIff(cfg, rows, start, now);
  }

  // ----- Reservation -----

  function Reservation(cfg: Settings, id: string, provider: string, model: string, inputChars: int, now: int): Row {
    Row(id, RESERVATION_FEATURE, provider, model, RESERVED,
        NonNegative(inputChars), cfg.ReserveOutput() * 4, None, None, NoError, now)
  }

  function Estimate(cfg: Settings, provider: string, model: string, inputChars: int): Option<real> {
    EstimateCost(cfg.pricing, provider, model, inputChars, cfg.ReserveOutput() * 4)
  }

  /** The row a check inserts prices to exactly the estimate the check was decided on. */
  lemma FreshReservationPricesToEstimate(cfg: Settings, id: string, provider: string, model: string, inputChars: int,
      now: int)
    ensures RowCost(cfg.pricing, Reservation(cfg, id, provider, model, inputChars, now))
         == Estimate(cfg, provider, model, inputChars)
    ensures Estimate(cfg, provider, model, inputChars).Some? ==>
              forall start :: start <= now ==>
                SpentWeight(cfg, start, now)(Reservation(cfg, id, provider, model, inputChars, now))
                == Estimate(cfg, provider, model, inputChars).value
  {
    assert EstimatedTokens(NonNegative(inputChars)) == EstimatedTokens(inputChars);
    assert cfg.Cutoff(now) < now;
  }

  datatype Verdict =
    | NotGuarded
    | Reserved(id: string)
    | ModelUnpriced
    | LocksMissing
    | HistoryUnpriced(period: Period, count: nat)
    | Exceeded(period: Period, spent: real)

  /** What one period answers: nothing when it is inactive or has room for the call. */
  ghost function Refusal(cfg: Settings, session: seq<Row>, period: Period, now: int, estimate: real): Option<Verdict> {
    var start := cfg.Start(period)(now);
    if !cfg.Active(period) then None
    else if Unpriced(cfg, session, start, now) != 0
      then Some(HistoryUnpriced(period, Unpriced(cfg, session, start, now)))
    else if Spent(cfg, session, start, now) + estimate >= cfg.Limit(period) then
      Some(Exceeded(period, Spent(cfg, session, start, now)))
    else None
  }

  predicate LocksReady(cfg: Settings, locks: map<Period, int>) {
    (cfg.Active(Daily) ==> Daily in locks) && (cfg.Active(Monthly) ==> Monthly in locks)
  }

  /** The verdict on an expired session: the day is asked before the month. */
  ghost function Decision(cfg: Settings, locks: map<Period, int>, session: seq<Row>, now: int, estimate: real,
      id: string): Verdict {
    var daily := Refusal(cfg, session, Daily, now, estimate);
    var monthly := Refusal(cfg, session, Monthly, now, estimate);
    if !LocksReady(cfg, locks) then LocksMissing
    else if daily.Some? then daily.value
    else if monthly.Some? then monthly.value
    else Reserved(id)
  }

  /** Room for the call: the whole history is priced and the call stays strictly below the limit. */
  ghost predicate Admits(cfg: Settings, session: seq<Row>, period: Period, now: int, estimate: real) {
    var start := cfg.Start(period)(now);
    Unpriced(cfg, session, start, now) == 0 && Spent(cfg, session, start, now) + estimate < cfg.Limit(period)
  }

  function Touch(cfg: Settings, locks: map<Period, int>, period: Period, now: int): map<Period, int> {
    if cfg.Active(period) && period in locks then locks[period := cfg.Start(period)(now)] else locks
  }

  class Ledger {
    var rows: seq<Row>
    var locks: map<Period, int>

    constructor (locks: map<Period, int>)
      ensures rows == [] && this.locks == locks
    {
      this.rows := [];
      this.locks := locks;
    }

    /** One turn of the loop over the active periods. */
    static method AskPeriod(cfg: Settings, session: seq<Row>, period: Period, now: int, estimate: real)
      returns (refusal: Option<Verdict>)
      ensures refusal == Refusal(cfg, session, period, now, estimate)
    {
      if !cfg.Active(period) {
        return None;
      }
      var spent, unpriced := SpentSince(cfg, session, cfg.Start(period)(now), now);
      if unpriced != 0 {
        return Some(HistoryUnpriced(period, unpriced));
      }
      if spent + estimate >= cfg.Limit(period) {
        return Some(Exceeded(period, spent));
      }
      return None;
    }

    /** Decides under the period locks; commits the expiry, the lock rows and the new row together. */
    method ReserveHardBudget(cfg: Settings, provider: string, model: string, inputChars: int, now: int,
                             estimate: real, id: string)
      returns (verdict: Verdict)
      modifies this
      ensures verdict == Decision(cfg, old(locks), Expire(cfg, old(rows), now), now, estimate, id)
      ensures !verdict.Reserved? ==> rows == old(rows) && locks == old(locks)
      ensures verdict.Reserved? ==>
        && rows == Expire(cfg, old(rows), now) + [Reservation(cfg, id, provider, model, inputChars, now)]
        && locks == Touch(cfg, Touch(cfg, old(locks), Daily, now), Monthly, now)
    {
      if !LocksReady(cfg, locks) {
        return LocksMissing;
      }
      var session := ExpireStaleReservations(cfg, rows, now);
      var refusal := AskPeriod(cfg, session, Daily, now, estimate);
      if refusal.Some? {
        return refusal.value;
      }
      refusal := AskPeriod(cfg, session, Monthly, now, estimate);
      if refusal.Some? {
        return refusal.value;
      }
      locks := Touch(cfg, Touch(cfg, locks, Daily, now), Monthly, now);
      rows := session + [Reservation(cfg, id, provider, model, inputChars, now)];
      verdict := Reserved(id);
    }

    /** The guard in front of every provider call; only a reservation changes the ledger. */
    method Check(cfg: Settings, provider: string, model: string, inputChars: int, now: int, id: string)
      returns (verdict: Verdict)
      modifies this
      ensures verdict == CheckVerdict(cfg, old(locks), old(rows), provider, model, inputChars, now, id)
      ensures !verdict.Reserved? ==> rows == old(rows) && locks == old(locks)
      ensures verdict.Reserved? ==>
        && rows == Expire(cfg, old(rows), now) + [Reservation(cfg, id, provider, model, inputChars, now)]
        && locks == Touch(cfg, Touch(cfg, old(locks), Daily, now), Monthly, now)
    {
      if !cfg.Active(Daily) && !cfg.Active(Monthly) {
        return NotGuarded;
      }
      var estimate := Estimate(cfg, provider, model, inputChars);
      if estimate == None {
        return if cfg.hardLimit then ModelUnpriced else NotGuarded;
      }
      if !cfg.hardLimit {
        // The advisory warning at 80% reads the ledger and never changes it.
        return NotGuarded;
      }
      verdict := ReserveHardBudget(cfg, provider, model, inputChars, now, estimate.value, id);
    }
  }

  ghost function CheckVerdict(cfg: Settings, locks: map<Period, int>, rows: seq<Row>,
                              provider: string, model: string, inputChars: int, now: int, id: string): Verdict {
    var estimate := Estimate(cfg, provider, model, inputChars);
    if !cfg.hardLimit || (!cfg.Active(Daily) && !cfg.Active(Monthly)) then NotGuarded
    else if estimate == None then ModelUnpriced
    else Decision(cfg, locks, Expire(cfg, rows, now), now, estimate.value, id)
  }

  /**
   A guarded call is reserved exactly when its model is priced, the lock rows exist and every
   active period admits the very cost its new row will be charged.
   */
  lemma ReservedIff(cfg: Settings, locks: map<Period, int>, rows: seq<Row>,
                    provider: string, model: string, inputChars: int, now: int, id: string)
    requires cfg.hardLimit && (cfg.Active(Daily) || cfg.Active(Monthly))
    ensures CheckVerdict(cfg, locks, rows, provider, model, inputChars, now, id).Reserved? <==>
      var cost := RowCost(cfg.pricing, Reservation(cfg, id, provider, model, inputChars, now));
      && cost.Some?
      && LocksReady(cfg, locks)
      && forall p :: cfg.Active(p) ==> Admits(cfg, Expire(cfg, rows, now), p, now, cost.value)
  {
    FreshReservationPricesToEstimate(cfg, id, provider, model, inputChars, now);
    var estimate := Estimate(cfg, provider, model, inputChars);
    if estimate.Some? {
      var session := Expire(cfg, rows, now);
      forall p | cfg.Active(p)
        ensures Admits(cfg, session, p, now, estimate.value) <==> Refusal(cfg, session, p, now, estimate.value) == None
      {
      }
      assert cfg.Active(Daily) ==> (Admits(cfg, session, Daily, now, estimate.value)
        <==> Refusal(cfg, session, Daily, now, estimate.value) == None);
      assert cfg.Active(Monthly) ==> (Admits(cfg, session, Monthly, now, estimate.value)
        <==> Refusal(cfg, session, Monthly, now, estimate.value) == None);
    }
  }

  // ----- What a check means for the budgets that are set -----

  /** A row created since ``from`` that was not rejected before it reached a provider. */
  function ChargedAfter(from: int): Row -> bool {
    (row: Row) => row.createdAt >= from && row.errorType != BudgetUnpriced && row.errorType != BudgetConfiguration
  }

  function UnpricedAfter(pricing: Pricing, from: int): Row -> bool {
    (row: Row) => ChargedAfter(from)(row) && pricing(row.provider, row.model) == None
  }

  ghost function CostAfter(pricing: Pricing, from: int): Row -> real {
    (row: Row) => if ChargedAfter(from)(row) then CostOrZero(pricing, row) else 0.0
  }

  /** All rows since ``from`` are priced, and together they cost less than the budget. */
  ghost predicate StaysBelow(pricing: Pricing, rows: seq<Row>, from: int, budget: real) {
    Count(rows, UnpricedAfter(pricing, from)) == 0 && Sum(rows, CostAfter(pricing, from)) < budget
  }

  /** After expiry nothing is stale, so the guard sums and counts every row of the period. */
  lemma {:induction false} GuardSeesEveryRow(cfg: Settings, rows: seq<Row>, start: int, now: int)
    ensures Spent(cfg, Expire(cfg, rows, now), start, now) == Sum(Expire(cfg, rows, now), CostAfter(cfg.pricing, start))
    ensures Unpriced(cfg, Expire(cfg, rows, now), start, now)
         == Count(Expire(cfg, rows, now), UnpricedAfter(cfg.pricing, start))
  {
    if rows != [] {
      var front := rows[..|rows| - 1];
      GuardSeesEveryRow(cfg, front, start, now);
      assert Expire(cfg, rows, now)[..|front|] == Expire(cfg, front, now);
      ExpiredRowIsSeen(cfg, rows[|rows| - 1], start, now);
    }
  }

  lemma ExpiredRowIsSeen(cfg: Settings, row: Row, start: int, now: int)
    ensures var expired := ExpireRow(cfg, row, now);
      && Counted(cfg, expired, start, now) == ChargedAfter(start)(expired)
      && SpentWeight(cfg, start, now)(expired) == CostAfter(cfg.pricing, start)(expired)
      && UnpricedAfter(cfg.pricing, start)(expired)
         == (Counted(cfg, expired, start, now) && RowCost(cfg.pricing, expired) == None)
  {
  }

  /** The new row is charged what the check was decided on. */
  lemma ReservationIsAdded(cfg: Settings, session: seq<Row>, id: string, provider: string, model: string,
                           inputChars: int, now: int, start: int)
    requires start <= now && Estimate(cfg, provider, model, inputChars).Some?
    ensures var after := session + [Reservation(cfg, id, provider, model, inputChars, now)];
      && Sum(after, CostAfter(cfg.pricing, start))
         == Sum(session, CostAfter(cfg.pricing, start)) + Estimate(cfg, provider, model, inputChars).value
      && Count(after, UnpricedAfter(cfg.pricing, start)) == Count(session, UnpricedAfter(cfg.pricing, start))
  {
    var row := Reservation(cfg, id, provider, model, inputChars, now);
    FreshReservationPricesToEstimate(cfg, id, provider, model, inputChars, now);
    assert ChargedAfter(start)(row);
    assert CostAfter(cfg.pricing, start)(row) == CostOrZero(cfg.pricing, row);
    assert !UnpricedAfter(cfg.pricing, start)(row);
    SumSnoc(session, row, CostAfter(cfg.pricing, start));
    assert (session + [row])[..|session|] == session;
  }

  /** One period admits the call exactly when the ledger with its row stays below the budget. */
  lemma AdmitsIff(cfg: Settings, rows: seq<Row>, period: Period, id: string, provider: string, model: string,
                  inputChars: int, now: int)
    requires cfg.CalendarIsLawful() && Estimate(cfg, provider, model, inputChars).Some?
    ensures var session := Expire(cfg, rows, now);
      Admits(cfg, session, period, now, Estimate(cfg, provider, model, inputChars).value)
      <==> StaysBelow(cfg.pricing, session + [Reservation(cfg, id, provider, model, inputChars, now)],
                      cfg.Start(period)(now), cfg.Limit(period))
  {
    GuardSeesEveryRow(cfg, rows, cfg.Start(period)(now), now);
    ReservationIsAdded(cfg, Expire(cfg, rows, now), id, provider, model, inputChars, now, cfg.Start(period)(now));
  }

  ghost predicate StaysWithinBudgets(cfg: Settings, rows: seq<Row>, now: int) {
    && (cfg.dailyBudget > 0.0 ==> StaysBelow(cfg.pricing, rows, cfg.dayStart(now), cfg.dailyBudget))
    && (cfg.monthlyBudget > 0.0 ==> StaysBelow(cfg.pricing, rows, cfg.monthStart(now), cfg.monthlyBudget))
  }

  ghost predicate LocksMigrated(cfg: Settings, locks: map<Period, int>) {
    (cfg.dailyBudget > 0.0 ==> Daily in locks) && (cfg.monthlyBudget > 0.0 ==> Monthly in locks)
  }

  ghost predicate Guarded(cfg: Settings) {
    cfg.hardLimit && (cfg.dailyBudget > 0.0 || cfg.monthlyBudget > 0.0)
  }

  /**
   A call is reserved if and only if a positive budget is enforced, the model has a price, the lock rows
   exist, and the ledger with the new row stays below each positive budget since the start of its period.
   A budget of zero or less restricts nothing.
   */
  lemma ReservedIffWithinBudgets(cfg: Settings, locks: map<Period, int>, rows: seq<Row>,
                                 provider: string, model: string, inputChars: int, now: int, id: string)
    requires cfg.CalendarIsLawful()
    ensures CheckVerdict(cfg, locks, rows, provider, model, inputChars, now, id).Reserved? <==>
      && Guarded(cfg) && cfg.pricing(provider, model).Some? && LocksMigrated(cfg, locks)
      && StaysWithinBudgets(cfg, Expire(cfg, rows, now) + [Reservation(cfg, id, provider, model, inputChars, now)], now)
  {
    if Guarded(cfg) && cfg.pricing(provider, model).Some? {
      ReservedIff(cfg, locks, rows, provider, model, inputChars, now, id);
      FreshReservationPricesToEstimate(cfg, id, provider, model, inputChars, now);
      AdmitsIff(cfg, rows, Daily, id, provider, model, inputChars, now);
      AdmitsIff(cfg, rows, Monthly, id, provider, model, inputChars, now);
    }
  }

  /** What the error says is true of the rows since the start of the period it names. */
  ghost predicate Explains(pricing: Pricing, session: seq<Row>, from: int, budget: real, cost: real, verdict: Verdict) {
    budget > 0.0 && match verdict
    case HistoryUnpriced(_, count) => count == Count(session, UnpricedAfter(pricing, from)) > 0
    case Exceeded(_, spent) =>
      && Count(session, UnpricedAfter(pricing, from)) == 0
      && spent == Sum(session, CostAfter(pricing, from)) && spent + cost >= budget
    case _ => false
  }

  lemma RefusalExplains(cfg: Settings, rows: seq<Row>, period: Period, now: int, cost: real)
    ensures var session := Expire(cfg, rows, now);
      var refusal := Refusal(cfg, session, period, now, cost);
      refusal.Some? ==>
        Explains(cfg.pricing, session, cfg.Start(period)(now), cfg.Limit(period), cost, refusal.value)
  {
    GuardSeesEveryRow(cfg, rows, cfg.Start(period)(now), now);
  }

  /** Every refusal names its reason, and the day is asked before the month. */
  lemma VerdictMeans(cfg: Settings, locks: map<Period, int>, rows: seq<Row>,
                     provider: string, model: string, inputChars: int, now: int, id: string)
    requires cfg.CalendarIsLawful()
    ensures var verdict := CheckVerdict(cfg, locks, rows, provider, model, inputChars, now, id);
      var session := Expire(cfg, rows, now);
      var row := Reservation(cfg, id, provider, model, inputChars, now);
      var cost := CostOrZero(cfg.pricing, row);
      var daily := Explains(cfg.pricing, session, cfg.dayStart(now), cfg.dailyBudget, cost, verdict);
      var monthly := Explains(cfg.pricing, session, cfg.monthStart(now), cfg.monthlyBudget, cost, verdict)
        && (cfg.dailyBudget > 0.0 ==> StaysBelow(cfg.pricing, session + [row], cfg.dayStart(now), cfg.dailyBudget));
      && (verdict.NotGuarded? <==> !Guarded(cfg))
      && (verdict.ModelUnpriced? <==> Guarded(cfg) && cfg.pricing(provider, model) == None)
      && (verdict.LocksMissing? <==>
            Guarded(cfg) && cfg.pricing(provider, model).Some? && !LocksMigrated(cfg, locks))
      && (verdict.HistoryUnpriced? || verdict.Exceeded? ==> if verdict.period == Daily then daily else monthly)
      && (verdict.Reserved? ==> verdict.id == id)
  {
    if Guarded(cfg) && cfg.pricing(provider, model).Some? {
      FreshReservationPricesToEstimate(cfg, id, provider, model, inputChars, now);
      var cost := Estimate(cfg, provider, model, inputChars).value;
      RefusalExplains(cfg, rows, Daily, now, cost);
      RefusalExplains(cfg, rows, Monthly, now, cost);
      AdmitsIff(cfg, rows, Daily, id, provider, model, inputChars, now);
    }
  }

  /** A reserved call dates the lock row of every enforced period and leaves the other as it was. */
  lemma LocksAreDated(cfg: Settings, locks: map<Period, int>, now: int)
    requires LocksMigrated(cfg, locks)
    ensures var dated := Touch(cfg, Touch(cfg, locks, Daily, now), Monthly, now);
      && dated.Keys == locks.Keys
      && (Daily in locks ==> dated[Daily] == if cfg.dailyBudget > 0.0 then cfg.dayStart(now) else locks[Daily])
      && (Monthly in locks ==>
            dated[Monthly] == if cfg.monthlyBudget > 0.0 then cfg.monthStart(now) else locks[Monthly])
  {
  }

  /** The estimate prices the prompt and the whole reserved output. */
  lemma EstimateMeans(cfg: Settings, provider: string, model: string, inputChars: int, rate: Rate)
    returns (input: nat, output: nat)
    requires cfg.pricing(provider, model) == Some(rate)
    ensures Estimate(cfg, provider, model, inputChars).Some?
    ensures 1000000.0 * Estimate(cfg, provider, model, inputChars).value
         == input as real * rate.input + output as real * rate.output
    ensures CountsTokens(input, None, inputChars)
    ensures output == if cfg.reserveOutputTokens < 0 then 0 else cfg.reserveOutputTokens
  {
    var row := Reservation(cfg, "", provider, model, inputChars, 0);
    FreshReservationPricesToEstimate(cfg, "", provider, model, inputChars, 0);
    input, output := RowCostMeans(cfg.pricing, row, rate);
  }

  /** A reservation is a row of its own feature, RESERVED since now, and stale once the timeout has passed. */
  lemma ReservationMeans(cfg: Settings, id: string, provider: string, model: string, inputChars: int, now: int)
    ensures var row := Reservation(cfg, id, provider, model, inputChars, now);
      && row.id == id && row.feature == "__budget_reservation__" && row.provider == provider && row.model == model
      && row.status == RESERVED && row.errorType == NoError && row.createdAt == now
      && forall later ::
           Stale(cfg, row, later) <==> later - now > 60 * SECOND && later - now > cfg.reservationTimeout * SECOND
  {
  }

  /** A row expires exactly when it is still RESERVED and older than the timeout, which is at least a minute. */
  lemma ExpiresIff(cfg: Settings, rows: seq<Row>, now: int, i: nat)
    requires i < |rows|
    ensures var expires := rows[i].status == RESERVED
        && now - rows[i].createdAt > 60 * SECOND && now - rows[i].createdAt > cfg.reservationTimeout * SECOND;
      Expire(cfg, rows, now)[i]
      == if expires then rows[i].(status := ERROR, errorType := ReservationExpired) else rows[i]
  {
  }

  // ----- The grouped report and the ledger -----

  ghost function PassedOverWeight(cfg: Settings, cutoff: int, now: int): Row -> real {
    (row: Row) =>
      if row.createdAt >= cutoff && !Counted(cfg, row, cutoff, now) then CostOrZero(cfg.pricing, row) else 0.0
  }

  /** The report total is the ledger spend plus the cost of the rows the ledger passes over. */
  lemma {:induction false} ReportAgreesWithLedger(cfg: Settings, rows: seq<Row>, cutoff: int, now: int)
    ensures Sum(Since(rows, cutoff), CostWeight(cfg.pricing))
         == Spent(cfg, rows, cutoff, now) + Sum(rows, PassedOverWeight(cfg, cutoff, now))
  {
    if rows != [] {
      var n := |rows| - 1;
      ReportAgreesWithLedger(cfg, rows[..n], cutoff, now);
      SumSnoc(Since(rows[..n], cutoff), rows[n], CostWeight(cfg.pricing));
      assert Since(rows[..n], cutoff) + [] == Since(rows[..n], cutoff);
    }
  }
}
