/**
 Hard-mode budget checks as concurrent database transactions.

 One check takes the lock rows, expires stale reservations, reads the two period sums in
 separate statements and inserts its row at the commit (shared/ai_budget.py:176-212). The
 clock of a check was sampled before it waited for the locks, so it is any instant at all.
 While a check is between two statements, other transactions commit: settlements of earlier
 calls and records of calls that were never reserved (shared/ai_observability.py:115-127).

 Sessions do not flush on their own (shared/db.py:81). The stale rows are read without a lock and
 marked in memory only; the marks reach the database with the commit. Until then the session goes
 on seeing its own copies of them, and anyone may settle them.
 A crash before the commit rolls the check back; a crash afterwards simply leaves the
 reservation in the ledger.
 */
module BudgetProtocol {
  import opened Wrappers
  import opened Sums
  import opened AiCost
  import opened AiBudget

  /** A settlement or an unreserved record that raised what a row is charged. */
  datatype Overrun = Overrun(createdAt: int, amount: Money)

  datatype Stage = Locked | Expired | DayRead | MonthRead

  /** ``copies``: the marked copies of the stale rows, by id. */
  datatype Check = Check(
    stage: Stage, row: Row, estimate: real, copies: map<string, Row>, daySpent: real, monthSpent: real)

  datatype State = State(rows: seq<Row>, overruns: seq<Overrun>, holder: Option<Check>)

  datatype Event =
    | Lock(row: Row)
    | ExpireStale
    | ReadDay
    | ReadMonth
    | Commit
    | Rollback
    | Settle(index: nat, outcome: Row)
    | Record(row: Row)

  // ----- Charges -----

  /** What the guard charges a row, whatever its age. */
  function Charge(cfg: Settings, row: Row): Money {
    if RejectedBeforeProvider(row) then 0.0 else CostOrZero(cfg.pricing, row)
  }

  ghost function ChargeIn(cfg: Settings, period: Period, start: int): Row -> real {
    (row: Row) => if cfg.Start(period)(row.createdAt) == start then Charge(cfg, row) else 0.0
  }

  ghost function OverrunWeight(cfg: Settings, period: Period, start: int): Overrun -> real {
    (over: Overrun) => if cfg.Start(period)(over.createdAt) == start then over.amount else 0.0
  }

  /** The charges of the rows created in the period that starts at ``start``. */
  ghost function Charged(cfg: Settings, rows: seq<Row>, period: Period, start: int): real {
    Sum(rows, ChargeIn(cfg, period, start))
  }

  /** By how much later transactions raised the charges of that period. */
  ghost function Overran(cfg: Settings, overruns: seq<Overrun>, period: Period, start: int): real {
    Sum(overruns, OverrunWeight(cfg, period, start))
  }

  function Rise(before: Money, after: Money): Money { if after > before then after - before else 0.0 }

  /** By how much the priced cost of a settlement exceeds what the row was charged. */
  function OverrunOf(cfg: Settings, before: Row, outcome: Row): Overrun {
    Overrun(outcome.createdAt, Rise(Charge(cfg, before), CostOrZero(cfg.pricing, outcome)))
  }

  // ----- The session of the check holding the locks -----

  function Marked(row: Row): Row { row.(status := ERROR, errorType := ReservationExpired) }

  function MarkExpired(row: Row, stale: set<string>): Row { if row.id in stale then Marked(row) else row }

  /** The rows as they will be once the marks are written: whatever a marked row holds by then, it is an expired one. */
  function Session(rows: seq<Row>, stale: set<string>): (session: seq<Row>)
    ensures |session| == |rows|
    ensures forall i :: 0 <= i < |rows| ==> session[i] == MarkExpired(rows[i], stale)
  {
    if rows == [] then []
    else Session(rows[..|rows| - 1], stale) + [MarkExpired(rows[|rows| - 1], stale)]
  }

  function AsRead(row: Row, copies: map<string, Row>): Row { if row.id in copies then copies[row.id] else row }

  /** The rows as a statement of the holder reads them: its own copies of the marked rows, the others as committed. */
  function View(rows: seq<Row>, copies: map<string, Row>): (view: seq<Row>)
    ensures |view| == |rows|
    ensures forall i :: 0 <= i < |rows| ==> view[i] == AsRead(rows[i], copies)
  {
    if rows == [] then []
    else View(rows[..|rows| - 1], copies) + [AsRead(rows[|rows| - 1], copies)]
  }

  /** The copies that the expiry step marks. */
  function CopiesOf(cfg: Settings, rows: seq<Row>, now: int): map<string, Row> {
    if rows == [] then map[]
    else
      var row, front := rows[|rows| - 1], CopiesOf(cfg, rows[..|rows| - 1], now);
      if Stale(cfg, row, now) then front[row.id := Marked(row)] else front
  }

  function Ids(rows: seq<Row>): set<string> {
    set row | row in rows :: row.id
  }

  // ----- Steps -----

  ghost predicate IsReservation(cfg: Settings, row: Row) {
    exists id, provider, model, inputChars ::
      row == Reservation(cfg, id, provider, model, inputChars, row.createdAt)
  }

  /** The period sum a check reads, and whether it lets the check go on. */
  ghost predicate Passes(cfg: Settings, s: State, check: Check, period: Period) {
    Admits(cfg, View(s.rows, check.copies), period, check.row.createdAt, check.estimate)
  }

  ghost predicate Step(cfg: Settings, s: State, e: Event, s': State) {
    match e
    case Lock(row) =>
      && s.holder == None
      && IsReservation(cfg, row) && RowCost(cfg.pricing, row).Some?
      && row.id !in Ids(s.rows)
      && s' == s.(holder := Some(Check(Locked, row, RowCost(cfg.pricing, row).value, map[], 0.0, 0.0)))
    case ExpireStale =>
      && s.holder.Some? && s.holder.value.stage == Locked
      && s' == s.(holder := Some(s.holder.value.(
           stage := Expired, copies := CopiesOf(cfg, s.rows, s.holder.value.row.createdAt))))
    case ReadDay =>
      s.holder.Some? && s.holder.value.stage == Expired && (
        var check := s.holder.value;
        var now := check.row.createdAt;
        && (cfg.Active(Daily) ==> Passes(cfg, s, check, Daily))
        && s' == s.(holder := Some(check.(
             stage := DayRead, daySpent := Spent(cfg, View(s.rows, check.copies), cfg.dayStart(now), now)))))
    case ReadMonth =>
      s.holder.Some? && s.holder.value.stage == DayRead && (
        var check := s.holder.value;
        var now := check.row.createdAt;
        && (cfg.Active(Monthly) ==> Passes(cfg, s, check, Monthly))
        && s' == s.(holder := Some(check.(
             stage := MonthRead, monthSpent := Spent(cfg, View(s.rows, check.copies), cfg.monthStart(now), now)))))
    case Commit =>
      && s.holder.Some? && s.holder.value.stage == MonthRead
      && s' == s.(rows := Session(s.rows, s.holder.value.copies.Keys) + [s.holder.value.row], holder := None)
    case Rollback =>
      s.holder.Some? && s' == s.(holder := None)
    case Settle(i, outcome) =>
      && i < |s.rows|
      && outcome.id == s.rows[i].id && outcome.createdAt == s.rows[i].createdAt && outcome.status != RESERVED
      && s' == s.(rows := s.rows[i := outcome], overruns := s.overruns + [OverrunOf(cfg, s.rows[i], outcome)])
    case Record(row) =>
      && row.status != RESERVED
      && row.id !in Ids(s.rows)
      && (s.holder.Some? ==> s.holder.value.row.id != row.id)
      && s' == s.(rows := s.rows + [row], overruns := s.overruns + [Overrun(row.createdAt, Charge(cfg, row))])
  }

  const INITIAL := State([], [], None)

  ghost predicate Run(cfg: Settings, states: seq<State>, events: seq<Event>) {
    && |states| == |events| + 1
    && states[0] == INITIAL
    && forall i :: 0 <= i < |events| ==> Step(cfg, states[i], events[i], states[i + 1])
  }

  // ----- What every step keeps -----

  ghost predicate Bounded(cfg: Settings, s: State, period: Period, start: int) {
    Charged(cfg, s.rows, period, start) < cfg.Limit(period) + Overran(cfg, s.overruns, period, start)
  }

  /** The rows once the holder's marks are written. */
  function Pending(s: State, check: Check): seq<Row> { Session(s.rows, check.copies.Keys) }

  /** A sum already read stays good: what changed since is accounted for as overruns. */
  ghost predicate ReadingHolds(cfg: Settings, s: State, check: Check, period: Period, spent: real) {
    var start := cfg.Start(period)(check.row.createdAt);
    && Charged(cfg, Pending(s, check), period, start) <= spent + Overran(cfg, s.overruns, period, start)
    && spent + check.estimate < cfg.Limit(period)
  }

  /** The holder has marked every stale reservation, and its own row is still to come. */
  ghost predicate MarksAreSound(cfg: Settings, s: State, check: Check) {
    && Charge(cfg, check.row) == check.estimate && check.row.errorType == NoError
    && check.copies.Keys <= Ids(s.rows) && check.row.id !in Ids(s.rows)
    && (check.stage == Locked ==> check.copies == map[])
    && (forall id :: id in check.copies ==> check.copies[id].status == ERROR)
    && (check.stage != Locked ==>
         forall r :: r in s.rows && Stale(cfg, r, check.row.createdAt) ==> r.id in check.copies)
  }

  /** Writing the marks keeps the bound, and costs no more than the copies and the overruns say. */
  ghost predicate MarksAreCovered(cfg: Settings, s: State, check: Check, period: Period, start: int) {
    && Charged(cfg, Pending(s, check), period, start) < cfg.Limit(period) + Overran(cfg, s.overruns, period, start)
    && Charged(cfg, Pending(s, check), period, start)
       <= Charged(cfg, View(s.rows, check.copies), period, start) + Overran(cfg, s.overruns, period, start)
  }

  ghost predicate AllCovered(cfg: Settings, s: State, check: Check) {
    forall period, start :: cfg.Active(period) ==> MarksAreCovered(cfg, s, check, period, start)
  }

  ghost predicate ReadingsHold(cfg: Settings, s: State, check: Check) {
    && (check.stage in {DayRead, MonthRead} && cfg.Active(Daily) ==> ReadingHolds(cfg, s, check, Daily, check.daySpent))
    && (check.stage == MonthRead && cfg.Active(Monthly) ==> ReadingHolds(cfg, s, check, Monthly, check.monthSpent))
  }

  ghost predicate CheckIsSound(cfg: Settings, s: State, check: Check) {
    MarksAreSound(cfg, s, check) && AllCovered(cfg, s, check) && ReadingsHold(cfg, s, check)
  }

  ghost predicate RowsAreSound(rows: seq<Row>) {
    && (forall r :: r in rows && r.status == RESERVED ==> r.errorType == NoError)
    && (forall i, j :: 0 <= i < j < |rows| ==> rows[i].id != rows[j].id)
  }

  ghost predicate AllBounded(cfg: Settings, s: State) {
    forall period, start :: cfg.Active(period) ==> Bounded(cfg, s, period, start)
  }

  ghost predicate Invariant(cfg: Settings, s: State) {
    && AllBounded(cfg, s) && RowsAreSound(s.rows)
    && (s.holder.Some? ==> CheckIsSound(cfg, s, s.holder.value))
  }

  // ----- How the sums move -----

  lemma OverrunSnoc(cfg: Settings, s: State, over: Overrun, period: Period, start: int)
    ensures Overran(cfg, s.overruns + [over], period, start)
         == Overran(cfg, s.overruns, period, start) + OverrunWeight(cfg, period, start)(over)
  {
    SumSnoc(s.overruns, over, OverrunWeight(cfg, period, start));
  }

  lemma {:induction false} OverrunsAreNonNegative(cfg: Settings, overruns: seq<Overrun>, period: Period, start: int)
    ensures 0.0 <= Overran(cfg, overruns, period, start)
  {
    if overruns != [] {
      OverrunsAreNonNegative(cfg, overruns[..|overruns| - 1], period, start);
      assert 0.0 <= overruns[|overruns| - 1].amount;
    }
  }

  lemma ChargedUpdate(cfg: Settings, rows: seq<Row>, i: nat, row: Row, period: Period, start: int)
    requires i < |rows|
    ensures Charged(cfg, rows[i := row], period, start)
         == Charged(cfg, rows, period, start) - ChargeIn(cfg, period, start)(rows[i])
           + ChargeIn(cfg, period, start)(row)
  {
    SumUpdate(rows, i, row, ChargeIn(cfg, period, start));
  }

  lemma ChargedSnoc(cfg: Settings, rows: seq<Row>, row: Row, period: Period, start: int)
    ensures Charged(cfg, rows + [row], period, start)
      == Charged(cfg, rows, period, start) + ChargeIn(cfg, period, start)(row)
  {
    SumSnoc(rows, row, ChargeIn(cfg, period, start));
  }

  /** A mark leaves the priced cost of a row alone, so a marked row is charged that cost. */
  lemma MarkedIsPriced(cfg: Settings, row: Row)
    ensures Charge(cfg, Marked(row)) == CostOrZero(cfg.pricing, row) && Marked(row).createdAt == row.createdAt
  {
    assert RowCost(cfg.pricing, Marked(row)) == RowCost(cfg.pricing, row);
  }

  lemma SettledRowIsCovered(cfg: Settings, row: Row, outcome: Row, stale: set<string>)
    requires outcome.id == row.id
    ensures Charge(cfg, MarkExpired(outcome, stale))
      <= Charge(cfg, MarkExpired(row, stale)) + OverrunOf(cfg, row, outcome).amount
  {
    MarkedIsPriced(cfg, row);
    MarkedIsPriced(cfg, outcome);
    assert Charge(cfg, row) <= CostOrZero(cfg.pricing, row) && Charge(cfg, outcome) <= CostOrZero(cfg.pricing, outcome);
  }

  /** A settlement raises the charges, marked or not, by no more than the overrun it logs. */
  lemma SettlementIsCovered(cfg: Settings, s: State, i: nat, outcome: Row, stale: set<string>, period: Period,
      start: int)
    requires i < |s.rows| && outcome.id == s.rows[i].id && outcome.createdAt == s.rows[i].createdAt
    ensures Charged(cfg, Session(s.rows[i := outcome], stale), period, start)
         <= Charged(cfg, Session(s.rows, stale), period, start)
            + OverrunWeight(cfg, period, start)(OverrunOf(cfg, s.rows[i], outcome))
  {
    assert Session(s.rows[i := outcome], stale) == Session(s.rows, stale)[i := MarkExpired(outcome, stale)];
    ChargedUpdate(cfg, Session(s.rows, stale), i, MarkExpired(outcome, stale), period, start);
    SettledRowIsCovered(cfg, s.rows[i], outcome, stale);
  }

  lemma RecordIsCovered(cfg: Settings, s: State, row: Row, stale: set<string>, period: Period, start: int)
    requires row.id !in stale
    ensures Charged(cfg, Session(s.rows + [row], stale), period, start)
         == Charged(cfg, Session(s.rows, stale), period, start)
            + OverrunWeight(cfg, period, start)(Overrun(row.createdAt, Charge(cfg, row)))
  {
    assert Session(s.rows + [row], stale) == Session(s.rows, stale) + [row];
    ChargedSnoc(cfg, Session(s.rows, stale), row, period, start);
  }

  lemma NothingMarked(rows: seq<Row>)
    ensures Session(rows, {}) == rows
  {
  }

  /**
   A settlement or a record raises the charges by no more than the overrun it logs, whichever rows
   are to be marked; with nothing to be marked these are the charges of the committed rows.
   */
  lemma OtherTransactionsAreCovered(
      cfg: Settings, s: State, e: Event, s': State, stale: set<string>, period: Period, start: int)
    requires Step(cfg, s, e, s') && ByOthers(e) && (e.Record? ==> e.row.id !in stale)
    ensures Charged(cfg, Session(s'.rows, stale), period, start) - Overran(cfg, s'.overruns, period, start)
         <= Charged(cfg, Session(s.rows, stale), period, start) - Overran(cfg, s.overruns, period, start)
    ensures Overran(cfg, s.overruns, period, start) <= Overran(cfg, s'.overruns, period, start)
  {
    OverrunSnoc(cfg, s, s'.overruns[|s.overruns|], period, start);
    match e
    case Settle(i, outcome) => SettlementIsCovered(cfg, s, i, outcome, stale, period, start);
    case Record(row) => RecordIsCovered(cfg, s, row, stale, period, start);
  }

  lemma MarkingKeepsCharge(cfg: Settings, row: Row, stale: set<string>)
    requires row.id in stale ==> row.errorType == NoError
    ensures Charge(cfg, MarkExpired(row, stale)) == Charge(cfg, row)
    ensures MarkExpired(row, stale).createdAt == row.createdAt
  {
    MarkedIsPriced(cfg, row);
  }

  /** Marking reservations changes no charge: they are charged before and after. */
  lemma {:induction false} ExpiryKeepsCharges(cfg: Settings, rows: seq<Row>, stale: set<string>, period: Period,
      start: int)
    requires forall i :: 0 <= i < |rows| && rows[i].id in stale ==> rows[i].errorType == NoError
    ensures Charged(cfg, Session(rows, stale), period, start) == Charged(cfg, rows, period, start)
  {
    if rows != [] {
      var n := |rows| - 1;
      ExpiryKeepsCharges(cfg, rows[..n], stale, period, start);
      ChargedSnoc(cfg, Session(rows[..n], stale), MarkExpired(rows[n], stale), period, start);
      MarkingKeepsCharge(cfg, rows[n], stale);
    }
  }

  // ----- The copies -----

  /** The copies are those of the stale rows, each marked. */
  lemma {:induction false} CopiesAreMarked(cfg: Settings, rows: seq<Row>, now: int)
    requires forall i, j :: 0 <= i < j < |rows| ==> rows[i].id != rows[j].id
    ensures forall r :: r in rows ==> (r.id in CopiesOf(cfg, rows, now) <==> Stale(cfg, r, now))
    ensures forall r :: r in rows && Stale(cfg, r, now) ==> CopiesOf(cfg, rows, now)[r.id] == Marked(r)
    ensures forall id :: id in CopiesOf(cfg, rows, now) ==>
      id in Ids(rows) && CopiesOf(cfg, rows, now)[id].status == ERROR
  {
    if rows != [] {
      var n := |rows| - 1;
      CopiesAreMarked(cfg, rows[..n], now);
      assert rows == rows[..n] + [rows[n]];
      assert forall r :: r in rows[..n] ==> r.id != rows[n].id;
      assert rows[n].id !in Ids(rows[..n]);
      assert Ids(rows[..n]) <= Ids(rows);
    }
  }

  /** At the expiry step the copies are what the marks will make of the rows. */
  lemma CopiesAreExact(cfg: Settings, rows: seq<Row>, now: int)
    requires forall i, j :: 0 <= i < j < |rows| ==> rows[i].id != rows[j].id
    ensures View(rows, CopiesOf(cfg, rows, now)) == Session(rows, CopiesOf(cfg, rows, now).Keys)
  {
    var copies := CopiesOf(cfg, rows, now);
    CopiesAreMarked(cfg, rows, now);
    forall i | 0 <= i < |rows| ensures AsRead(rows[i], copies) == MarkExpired(rows[i], copies.Keys) {
      assert rows[i] in rows;
    }
  }

  lemma SettlingKeepsIds(rows: seq<Row>, i: nat, outcome: Row)
    requires i < |rows| && rows[i].id == outcome.id
    ensures Ids(rows[i := outcome]) == Ids(rows)
  {
    forall id | id in Ids(rows) ensures id in Ids(rows[i := outcome]) {
      var j :| 0 <= j < |rows| && rows[j].id == id;
      assert rows[i := outcome][j] in rows[i := outcome];
    }
    forall id | id in Ids(rows[i := outcome]) ensures id in Ids(rows) {
      var j :| 0 <= j < |rows| && rows[i := outcome][j].id == id;
      assert rows[j] in rows && rows[j].id == id;
    }
  }

  // ----- The steps of the holder -----

  /**
   The sum a check reads covers the whole period of its clock: every row of the period was
   created at or after the start, and none of them is passed over once the stale ones are marked.
   Rows of later periods only make the sum larger, which is why commits out of time order are safe.
   Marked rows that were settled meanwhile are covered by the overruns.
   */
  lemma ReadingCoversPeriod(cfg: Settings, s: State, check: Check, period: Period)
    requires cfg.CalendarIsLawful() && Invariant(cfg, s) && s.holder == Some(check) && check.stage != Locked
    requires cfg.Active(period)
    ensures var now := check.row.createdAt; var start := cfg.Start(period)(now);
      Charged(cfg, Pending(s, check), period, start)
      <= Spent(cfg, View(s.rows, check.copies), start, now) + Overran(cfg, s.overruns, period, start)
  {
    var now := check.row.createdAt;
    var start := cfg.Start(period)(now);
    assert MarksAreCovered(cfg, s, check, period, start);
    ViewIsCounted(cfg, s, check, period);
  }

  lemma ViewIsCounted(cfg: Settings, s: State, check: Check, period: Period)
    requires cfg.CalendarIsLawful() && MarksAreSound(cfg, s, check) && check.stage != Locked
    ensures var now := check.row.createdAt; var start := cfg.Start(period)(now);
      Charged(cfg, View(s.rows, check.copies), period, start) <= Spent(cfg, View(s.rows, check.copies), start, now)
  {
    var now := check.row.createdAt;
    var start := cfg.Start(period)(now);
    var view := View(s.rows, check.copies);
    forall row | row in view ensures ChargeIn(cfg, period, start)(row) <= SpentWeight(cfg, start, now)(row) {
      var i :| 0 <= i < |view| && view[i] == row;
      assert s.rows[i] in s.rows;
      assert cfg.Start(period)(row.createdAt) <= row.createdAt;
    }
    SumMonotone(view, ChargeIn(cfg, period, start), SpentWeight(cfg, start, now));
  }

  lemma ReadKeepsInvariant(cfg: Settings, s: State, e: Event, s': State)
    requires cfg.CalendarIsLawful() && Invariant(cfg, s) && Step(cfg, s, e, s') && (e.ReadDay? || e.ReadMonth?)
    ensures Invariant(cfg, s')
  {
    var check := s.holder.value;
    var period := if e.ReadDay? then Daily else Monthly;
    if cfg.Active(period) {
      ReadingCoversPeriod(cfg, s, check, period);
    }
    HolderKeepsBounds(cfg, s, e, s');
    forall p, start | cfg.Active(p) ensures MarksAreCovered(cfg, s', s'.holder.value, p, start) {
      assert MarksAreCovered(cfg, s, check, p, start);
    }
  }

  lemma HolderKeepsBounds(cfg: Settings, s: State, e: Event, s': State)
    requires AllBounded(cfg, s) && s'.rows == s.rows && s'.overruns == s.overruns
    ensures AllBounded(cfg, s')
  {
    forall p, start | cfg.Active(p) ensures Bounded(cfg, s', p, start) {
      assert Bounded(cfg, s, p, start);
    }
  }

  lemma ExpiryKeepsInvariant(cfg: Settings, s: State, s': State)
    requires Invariant(cfg, s) && Step(cfg, s, ExpireStale, s')
    ensures Invariant(cfg, s')
  {
    var check, check' := s.holder.value, s'.holder.value;
    CopiesAreMarked(cfg, s.rows, check.row.createdAt);
    HolderKeepsBounds(cfg, s, ExpireStale, s');
    forall p, start | cfg.Active(p) ensures MarksAreCovered(cfg, s', check', p, start) {
      ExpiryIsCovered(cfg, s, s', check', p, start);
    }
  }

  lemma ExpiryIsCovered(cfg: Settings, s: State, s': State, check: Check, period: Period, start: int)
    requires Invariant(cfg, s) && s'.rows == s.rows && s'.overruns == s.overruns && cfg.Active(period)
    requires check.copies == CopiesOf(cfg, s.rows, check.row.createdAt)
    ensures MarksAreCovered(cfg, s', check, period, start)
  {
    assert Bounded(cfg, s, period, start);
    CopiesAreMarked(cfg, s.rows, check.row.createdAt);
    ExpiryKeepsCharges(cfg, s.rows, check.copies.Keys, period, start);
    CopiesAreExact(cfg, s.rows, check.row.createdAt);
    OverrunsAreNonNegative(cfg, s.overruns, period, start);
  }

  lemma LockKeepsInvariant(cfg: Settings, s: State, e: Event, s': State)
    requires Invariant(cfg, s) && Step(cfg, s, e, s') && e.Lock?
    ensures Invariant(cfg, s')
  {
    HolderKeepsBounds(cfg, s, e, s');
    forall p, start | cfg.Active(p) ensures MarksAreCovered(cfg, s', s'.holder.value, p, start) {
      LockIsCovered(cfg, s, s', s'.holder.value, p, start);
    }
  }

  lemma LockIsCovered(cfg: Settings, s: State, s': State, check: Check, period: Period, start: int)
    requires AllBounded(cfg, s) && s'.rows == s.rows && s'.overruns == s.overruns && cfg.Active(period)
    requires check.copies == map[]
    ensures MarksAreCovered(cfg, s', check, period, start)
  {
    assert Bounded(cfg, s, period, start);
    OverrunsAreNonNegative(cfg, s.overruns, period, start);
    NothingMarked(s.rows);
    assert check.copies.Keys == {};
    assert View(s.rows, check.copies) == s.rows;
  }

  /** The commit writes the marks and adds exactly the estimate, to the period of the clock and to no other. */
  lemma CommitKeepsBound(cfg: Settings, s: State, s': State, period: Period, start: int)
    requires Invariant(cfg, s) && Step(cfg, s, Commit, s') && cfg.Active(period)
    ensures Bounded(cfg, s', period, start)
  {
    var check := s.holder.value;
    assert MarksAreCovered(cfg, s, check, period, start);
    ChargedSnoc(cfg, Pending(s, check), check.row, period, start);
  }

  lemma CommitKeepsInvariant(cfg: Settings, s: State, s': State)
    requires Invariant(cfg, s) && Step(cfg, s, Commit, s')
    ensures Invariant(cfg, s')
  {
    forall p, start | cfg.Active(p) ensures Bounded(cfg, s', p, start) {
      CommitKeepsBound(cfg, s, s', p, start);
    }
    CommitKeepsRows(cfg, s, s');
  }

  lemma CommitKeepsRows(cfg: Settings, s: State, s': State)
    requires Invariant(cfg, s) && Step(cfg, s, Commit, s')
    ensures RowsAreSound(s'.rows)
  {
    forall i | 0 <= i < |s.rows| ensures s.rows[i].id != s.holder.value.row.id {
      assert s.rows[i] in s.rows;
    }
  }

  // ----- The steps of others -----

  /** The steps of transactions that do not hold the locks. */
  predicate ByOthers(e: Event) { e.Settle? || e.Record? }

  lemma OthersKeepInvariant(cfg: Settings, s: State, e: Event, s': State)
    requires Invariant(cfg, s) && Step(cfg, s, e, s') && ByOthers(e)
    ensures Invariant(cfg, s')
  {
    OthersKeepBounds(cfg, s, e, s');
    OthersKeepRows(cfg, s, e, s');
    if s.holder.Some? {
      OthersKeepMarks(cfg, s, e, s', s.holder.value);
      OthersKeepCovered(cfg, s, e, s', s.holder.value);
      OthersKeepReadings(cfg, s, e, s', s.holder.value);
    }
  }

  lemma OthersKeepBounds(cfg: Settings, s: State, e: Event, s': State)
    requires AllBounded(cfg, s) && Step(cfg, s, e, s') && ByOthers(e)
    ensures AllBounded(cfg, s')
  {
    NothingMarked(s.rows);
    NothingMarked(s'.rows);
    forall p, start | cfg.Active(p) ensures Bounded(cfg, s', p, start) {
      assert Bounded(cfg, s, p, start);
      OtherTransactionsAreCovered(cfg, s, e, s', {}, p, start);
    }
  }

  lemma OthersKeepRows(cfg: Settings, s: State, e: Event, s': State)
    requires RowsAreSound(s.rows) && Step(cfg, s, e, s') && ByOthers(e)
    ensures RowsAreSound(s'.rows)
  {
    if e.Record? {
      forall i | 0 <= i < |s.rows| ensures s.rows[i].id != e.row.id {
        assert s.rows[i] in s.rows;
      }
    }
  }

  lemma OthersKeepMarks(cfg: Settings, s: State, e: Event, s': State, check: Check)
    requires Step(cfg, s, e, s') && ByOthers(e) && s.holder == Some(check) && MarksAreSound(cfg, s, check)
    ensures MarksAreSound(cfg, s', check)
  {
    if e.Settle? {
      SettlingKeepsIds(s.rows, e.index, e.outcome);
    }
  }

  lemma OthersKeepCovered(cfg: Settings, s: State, e: Event, s': State, check: Check)
    requires Step(cfg, s, e, s') && ByOthers(e) && MarksAreSound(cfg, s, check) && AllCovered(cfg, s, check)
    ensures AllCovered(cfg, s', check)
  {
    forall p, start | cfg.Active(p) ensures MarksAreCovered(cfg, s', check, p, start) {
      assert MarksAreCovered(cfg, s, check, p, start);
      OtherTransactionsAreCovered(cfg, s, e, s', check.copies.Keys, p, start);
      OthersAreRead(cfg, s, e, s', check, p, start);
    }
  }

  /** How far the marked rows are from the copies grows by no more than the overruns. */
  lemma OthersAreRead(cfg: Settings, s: State, e: Event, s': State, check: Check, period: Period, start: int)
    requires Step(cfg, s, e, s') && ByOthers(e) && MarksAreSound(cfg, s, check)
    ensures Charged(cfg, Pending(s', check), period, start) - Charged(cfg, View(s'.rows, check.copies), period, start)
         <= Charged(cfg, Pending(s, check), period, start) - Charged(cfg, View(s.rows, check.copies), period, start)
            + Overran(cfg, s'.overruns, period, start) - Overran(cfg, s.overruns, period, start)
  {
    match e
    case Settle(i, outcome) => SettlementIsRead(cfg, s, e, s', check, period, start);
    case Record(row) =>
      OtherTransactionsAreCovered(cfg, s, e, s', check.copies.Keys, period, start);
      RecordIsCovered(cfg, s, row, check.copies.Keys, period, start);
      assert View(s'.rows, check.copies) == View(s.rows, check.copies) + [row];
      ChargedSnoc(cfg, View(s.rows, check.copies), row, period, start);
  }

  lemma SettlementIsRead(cfg: Settings, s: State, e: Event, s': State, check: Check, period: Period, start: int)
    requires Step(cfg, s, e, s') && e.Settle?
    ensures Charged(cfg, Pending(s', check), period, start) - Charged(cfg, View(s'.rows, check.copies), period, start)
         <= Charged(cfg, Pending(s, check), period, start) - Charged(cfg, View(s.rows, check.copies), period, start)
            + Overran(cfg, s'.overruns, period, start) - Overran(cfg, s.overruns, period, start)
  {
    OtherTransactionsAreCovered(cfg, s, e, s', check.copies.Keys, period, start);
    if e.outcome.id in check.copies {
      assert View(s'.rows, check.copies) == View(s.rows, check.copies);
    } else {
      UnmarkedSettlementIsRead(cfg, s.rows, e.index, e.outcome, check.copies, period, start);
    }
  }

  /** A row without a copy is read and charged alike. */
  lemma UnmarkedSettlementIsRead(cfg: Settings, rows: seq<Row>, i: nat, outcome: Row, copies: map<string, Row>,
                                 period: Period, start: int)
    requires i < |rows| && outcome.id == rows[i].id && outcome.id !in copies
    ensures Charged(cfg, Session(rows[i := outcome], copies.Keys), period, start)
            - Charged(cfg, Session(rows, copies.Keys), period, start)
         == Charged(cfg, View(rows[i := outcome], copies), period, start)
           - Charged(cfg, View(rows, copies), period, start)
  {
    assert View(rows[i := outcome], copies) == View(rows, copies)[i := outcome];
    assert Session(rows[i := outcome], copies.Keys) == Session(rows, copies.Keys)[i := outcome];
    ChargedUpdate(cfg, View(rows, copies), i, outcome, period, start);
    ChargedUpdate(cfg, Session(rows, copies.Keys), i, outcome, period, start);
  }

  lemma OthersKeepReadings(cfg: Settings, s: State, e: Event, s': State, check: Check)
    requires Step(cfg, s, e, s') && ByOthers(e) && MarksAreSound(cfg, s, check) && ReadingsHold(cfg, s, check)
    ensures ReadingsHold(cfg, s', check)
  {
    if check.stage in {DayRead, MonthRead} && cfg.Active(Daily) {
      OthersKeepReading(cfg, s, e, s', check, Daily, check.daySpent);
    }
    if check.stage == MonthRead && cfg.Active(Monthly) {
      OthersKeepReading(cfg, s, e, s', check, Monthly, check.monthSpent);
    }
  }

  lemma OthersKeepReading(cfg: Settings, s: State, e: Event, s': State, check: Check, period: Period, spent: real)
    requires Step(cfg, s, e, s') && ByOthers(e) && MarksAreSound(cfg, s, check)
    requires ReadingHolds(cfg, s, check, period, spent)
    ensures ReadingHolds(cfg, s', check, period, spent)
  {
    OtherTransactionsAreCovered(cfg, s, e, s', check.copies.Keys, period, cfg.Start(period)(check.row.createdAt));
  }

  lemma StepKeepsInvariant(cfg: Settings, s: State, e: Event, s': State)
    requires cfg.CalendarIsLawful() && Invariant(cfg, s) && Step(cfg, s, e, s')
    ensures Invariant(cfg, s')
  {
    match e
    case Settle(_, _) => OthersKeepInvariant(cfg, s, e, s');
    case Record(_) => OthersKeepInvariant(cfg, s, e, s');
    case ReadDay => ReadKeepsInvariant(cfg, s, e, s');
    case ReadMonth => ReadKeepsInvariant(cfg, s, e, s');
    case Commit => CommitKeepsInvariant(cfg, s, s');
    case ExpireStale => ExpiryKeepsInvariant(cfg, s, s');
    case Lock(_) => LockKeepsInvariant(cfg, s, e, s');
    case Rollback => HolderKeepsBounds(cfg, s, e, s');
  }

  lemma {:induction false} RunKeepsInvariant(cfg: Settings, states: seq<State>, events: seq<Event>, i: nat)
    requires cfg.CalendarIsLawful() && Run(cfg, states, events) && i <= |events|
    ensures Invariant(cfg, states[i])
  {
    if i > 0 {
      RunKeepsInvariant(cfg, states, events, i - 1);
      StepKeepsInvariant(cfg, states[i - 1], events[i - 1], states[i]);
    }
  }

  /**
   In every state of every interleaving, the rows created in any one day (or month) are charged
   strictly less than that limit plus what later transactions added to rows of that day (month).
   */
  lemma BudgetIsNeverOverspent(cfg: Settings, states: seq<State>, events: seq<Event>, i: nat, period: Period,
      start: int)
    requires cfg.CalendarIsLawful() && Run(cfg, states, events) && i <= |events| && cfg.Active(period)
    ensures Charged(cfg, states[i].rows, period, start)
          < cfg.Limit(period) + Overran(cfg, states[i].overruns, period, start)
  {
    RunKeepsInvariant(cfg, states, events, i);
    assert Bounded(cfg, states[i], period, start);
  }

  ghost function CostIn(cfg: Settings, period: Period, start: int): Row -> real {
    (row: Row) => if cfg.Start(period)(row.createdAt) == start then CostOrZero(cfg.pricing, row) else 0.0
  }

  ghost function RejectedCostIn(cfg: Settings, period: Period, start: int): Row -> real {
    (row: Row) =>
      if cfg.Start(period)(row.createdAt) == start && RejectedBeforeProvider(row)
      then CostOrZero(cfg.pricing, row) else 0.0
  }

  /** The same bound on the priced cost itself: only rows marked as rejected before a provider escape it. */
  lemma PricedCostBound(cfg: Settings, states: seq<State>, events: seq<Event>, i: nat, period: Period, start: int)
    requires cfg.CalendarIsLawful() && Run(cfg, states, events) && i <= |events| && cfg.Active(period)
    ensures Sum(states[i].rows, CostIn(cfg, period, start))
          < cfg.Limit(period) + Overran(cfg, states[i].overruns, period, start)
            + Sum(states[i].rows, RejectedCostIn(cfg, period, start))
  {
    BudgetIsNeverOverspent(cfg, states, events, i, period, start);
    forall row | row in states[i].rows
      ensures CostIn(cfg, period, start)(row)
        == ChargeIn(cfg, period, start)(row) + RejectedCostIn(cfg, period, start)(row)
    {
      if cfg.Start(period)(row.createdAt) == start {
        assert CostIn(cfg, period, start)(row) == CostOrZero(cfg.pricing, row);
        assert ChargeIn(cfg, period, start)(row) == Charge(cfg, row);
      }
    }
    SumAdd(states[i].rows, CostIn(cfg, period, start), ChargeIn(cfg, period, start),
      RejectedCostIn(cfg, period, start));
  }

  // ----- The bound in terms of the budgets that are set -----

  /** The cost of a row that was not rejected and whose creation lies in the period that starts at ``start``. */
  ghost function CostWithin(pricing: Pricing, starts: PeriodStart, start: int): Row -> real {
    (row: Row) =>
      if starts(row.createdAt) == start && row.errorType != BudgetUnpriced && row.errorType != BudgetConfiguration
      then CostOrZero(pricing, row) else 0.0
  }

  ghost function OverrunWithin(starts: PeriodStart, start: int): Overrun -> real {
    (over: Overrun) => if starts(over.createdAt) == start then over.amount else 0.0
  }

  /**
   Whenever a daily budget above zero is enforced, the rows of any one day cost less than it plus what
   later transactions added to rows of that day; and so for months.
   */
  lemma BudgetsAreNeverOverspent(cfg: Settings, states: seq<State>, events: seq<Event>, i: nat, start: int)
    requires cfg.CalendarIsLawful() && Run(cfg, states, events) && i <= |events|
    ensures cfg.dailyBudget > 0.0 ==>
      Sum(states[i].rows, CostWithin(cfg.pricing, cfg.dayStart, start))
      < cfg.dailyBudget + Sum(states[i].overruns, OverrunWithin(cfg.dayStart, start))
    ensures cfg.monthlyBudget > 0.0 ==>
      Sum(states[i].rows, CostWithin(cfg.pricing, cfg.monthStart, start))
      < cfg.monthlyBudget + Sum(states[i].overruns, OverrunWithin(cfg.monthStart, start))
  {
    if cfg.dailyBudget > 0.0 {
      BudgetIsNeverOverspent(cfg, states, events, i, Daily, start);
      ChargedIsCost(cfg, states[i], Daily, start);
    }
    if cfg.monthlyBudget > 0.0 {
      BudgetIsNeverOverspent(cfg, states, events, i, Monthly, start);
      ChargedIsCost(cfg, states[i], Monthly, start);
    }
  }

  lemma ChargedIsCost(cfg: Settings, s: State, period: Period, start: int)
    ensures Charged(cfg, s.rows, period, start) == Sum(s.rows, CostWithin(cfg.pricing, cfg.Start(period), start))
    ensures Overran(cfg, s.overruns, period, start) == Sum(s.overruns, OverrunWithin(cfg.Start(period), start))
  {
    forall row: Row
      ensures ChargeIn(cfg, period, start)(row) == CostWithin(cfg.pricing, cfg.Start(period), start)(row)
    {
      if cfg.Start(period)(row.createdAt) == start {
        assert ChargeIn(cfg, period, start)(row) == Charge(cfg, row);
      }
    }
    SumSame(s.rows, ChargeIn(cfg, period, start), CostWithin(cfg.pricing, cfg.Start(period), start));
    SumSame(s.overruns, OverrunWeight(cfg, period, start), OverrunWithin(cfg.Start(period), start));
  }

  /** No settlement that costs more than its row is charged, and no unreserved record that costs something. */
  ghost predicate StaysCovered(cfg: Settings, s: State, e: Event) {
    match e
    case Settle(i, outcome) =>
      i < |s.rows| ==>
        CostOrZero(cfg.pricing, outcome)
        <= CostWithin(cfg.pricing, cfg.dayStart, cfg.dayStart(s.rows[i].createdAt))(s.rows[i])
    case Record(row) => CostOrZero(cfg.pricing, row) == 0.0
    case _ => true
  }

  lemma {:induction false} NothingOverruns(cfg: Settings, states: seq<State>, events: seq<Event>, i: nat)
    requires Run(cfg, states, events) && i <= |events|
    requires forall k :: 0 <= k < i ==> StaysCovered(cfg, states[k], events[k])
    ensures forall over :: over in states[i].overruns ==> over.amount == 0.0
  {
    if i > 0 {
      NothingOverruns(cfg, states, events, i - 1);
      assert StaysCovered(cfg, states[i - 1], events[i - 1]);
      assert Step(cfg, states[i - 1], events[i - 1], states[i]);
    }
  }

  /**
   Without such steps the budgets themselves hold: as long as no call costs more than was reserved for it
   and every call that costs something is reserved, no interleaving spends a whole budget.
   */
  lemma CoveredCallsStayWithinBudgets(cfg: Settings, states: seq<State>, events: seq<Event>, i: nat, start: int)
    requires cfg.CalendarIsLawful() && Run(cfg, states, events) && i <= |events|
    requires forall k :: 0 <= k < i ==> StaysCovered(cfg, states[k], events[k])
    ensures cfg.dailyBudget > 0.0 ==>
      Sum(states[i].rows, CostWithin(cfg.pricing, cfg.dayStart, start)) < cfg.dailyBudget
    ensures cfg.monthlyBudget > 0.0 ==>
      Sum(states[i].rows, CostWithin(cfg.pricing, cfg.monthStart, start)) < cfg.monthlyBudget
  {
    BudgetsAreNeverOverspent(cfg, states, events, i, start);
    NothingOverruns(cfg, states, events, i);
    SumIsNonnegative(states[i].overruns, OverrunWithin(cfg.dayStart, start));
    SumIsNonnegative(states[i].overruns, OverrunWithin(cfg.monthStart, start));
  }

  // ----- Who waits for whom -----

  /** While a check holds the locks no other begins, and it stays the same check until it commits or is rolled back. */
  lemma LocksAreHeld(cfg: Settings, s: State, e: Event, s': State)
    requires Step(cfg, s, e, s') && s.holder.Some?
    ensures !e.Lock?
    ensures if e == Commit || e == Rollback then s'.holder == None
            else s'.holder.Some? && s'.holder.value.row == s.holder.value.row
                 && s'.holder.value.estimate == s.holder.value.estimate
  {
  }

  /** Settlements and unreserved records never wait, and a check can fail at any point. */
  lemma OthersNeverWait(cfg: Settings, s: State, i: nat, outcome: Row, row: Row)
    returns (settled: State, recorded: State, rolledBack: State)
    requires i < |s.rows| && outcome.id == s.rows[i].id && outcome.createdAt == s.rows[i].createdAt
    requires outcome.status != RESERVED && row.status != RESERVED && row.id !in Ids(s.rows)
    requires s.holder.Some? ==> s.holder.value.row.id != row.id
    ensures Step(cfg, s, Settle(i, outcome), settled) && settled.rows == s.rows[i := outcome]
    ensures Step(cfg, s, Record(row), recorded) && recorded.rows == s.rows + [row]
    ensures s.holder.Some? ==> Step(cfg, s, Rollback, rolledBack) && rolledBack == s.(holder := None)
  {
    settled := s.(rows := s.rows[i := outcome], overruns := s.overruns + [OverrunOf(cfg, s.rows[i], outcome)]);
    recorded := s.(rows := s.rows + [row], overruns := s.overruns + [Overrun(row.createdAt, Charge(cfg, row))]);
    rolledBack := s.(holder := None);
  }

  // ----- The sequential guard is one undisturbed run of the protocol -----

  lemma ExpiryWritesMarks(cfg: Settings, rows: seq<Row>, now: int)
    requires forall i, j :: 0 <= i < j < |rows| ==> rows[i].id != rows[j].id
    ensures Session(rows, CopiesOf(cfg, rows, now).Keys) == Expire(cfg, rows, now)
      == View(rows, CopiesOf(cfg, rows, now))
  {
    CopiesAreExact(cfg, rows, now);
    CopiesAreMarked(cfg, rows, now);
    forall i | 0 <= i < |rows|
      ensures MarkExpired(rows[i], CopiesOf(cfg, rows, now).Keys) == ExpireRow(cfg, rows[i], now)
    {
      assert rows[i] in rows;
    }
  }

  function Holding(before: State, check: Check): State { before.(holder := Some(check)) }

  function Taken(cfg: Settings, row: Row): Check
    requires RowCost(cfg.pricing, row).Some?
  {
    Check(Locked, row, RowCost(cfg.pricing, row).value, map[], 0.0, 0.0)
  }

  lemma LockIsStep(cfg: Settings, before: State, row: Row)
    requires before.holder == None && row.id !in Ids(before.rows)
    requires IsReservation(cfg, row) && RowCost(cfg.pricing, row).Some?
    ensures Step(cfg, before, Lock(row), Holding(before, Taken(cfg, row)))
  {
  }

  lemma ExpireIsStep(cfg: Settings, before: State, check: Check)
    requires check.stage == Locked
    ensures Step(cfg, Holding(before, check), ExpireStale,
                 Holding(before, check.(stage := Expired, copies := CopiesOf(cfg, before.rows, check.row.createdAt))))
  {
  }

  lemma ReadDayIsStep(cfg: Settings, before: State, check: Check, view: seq<Row>)
    requires check.stage == Expired && view == View(before.rows, check.copies)
    requires cfg.Active(Daily) ==> Admits(cfg, view, Daily, check.row.createdAt, check.estimate)
    ensures var now := check.row.createdAt;
      Step(cfg, Holding(before, check), ReadDay,
           Holding(before, check.(stage := DayRead, daySpent := Spent(cfg, view, cfg.dayStart(now), now))))
  {
  }

  lemma ReadMonthIsStep(cfg: Settings, before: State, check: Check, view: seq<Row>)
    requires check.stage == DayRead && view == View(before.rows, check.copies)
    requires cfg.Active(Monthly) ==> Admits(cfg, view, Monthly, check.row.createdAt, check.estimate)
    ensures var now := check.row.createdAt;
      Step(cfg, Holding(before, check), ReadMonth,
           Holding(before, check.(stage := MonthRead, monthSpent := Spent(cfg, view, cfg.monthStart(now), now))))
  {
  }

  lemma CommitIsStep(cfg: Settings, before: State, check: Check)
    requires check.stage == MonthRead
    ensures Step(cfg, Holding(before, check), Commit,
                 before.(rows := Session(before.rows, check.copies.Keys) + [check.row], holder := None))
  {
  }

  /** A reserved check of the sequential ledger takes five steps here and ends with the same rows. */
  lemma ReserveIsARun(cfg: Settings, before: State, locks: map<Period, int>, provider: string, model: string,
                      inputChars: int, now: int, id: string)
    returns (s1: State, s2: State, s3: State, s4: State, s5: State)
    requires before.holder == None && id !in Ids(before.rows)
    requires forall i, j :: 0 <= i < j < |before.rows| ==> before.rows[i].id != before.rows[j].id
    requires CheckVerdict(cfg, locks, before.rows, provider, model, inputChars, now, id).Reserved?
    ensures Step(cfg, before, Lock(Reservation(cfg, id, provider, model, inputChars, now)), s1)
    ensures Step(cfg, s1, ExpireStale, s2) && Step(cfg, s2, ReadDay, s3) && Step(cfg, s3, ReadMonth, s4)
    ensures Step(cfg, s4, Commit, s5) && s5.holder == None
    ensures s5.rows == Expire(cfg, before.rows, now) + [Reservation(cfg, id, provider, model, inputChars, now)]
  {
    var row := Reservation(cfg, id, provider, model, inputChars, now);
    ReservedIff(cfg, locks, before.rows, provider, model, inputChars, now, id);
    ExpiryWritesMarks(cfg, before.rows, now);
    var view := Expire(cfg, before.rows, now);
    var c0 := Taken(cfg, row);
    var c1 := c0.(stage := Expired, copies := CopiesOf(cfg, before.rows, now));
    var c2 := c1.(stage := DayRead, daySpent := Spent(cfg, view, cfg.dayStart(now), now));
    var c3 := c2.(stage := MonthRead, monthSpent := Spent(cfg, view, cfg.monthStart(now), now));
    LockIsStep(cfg, before, row);
    ExpireIsStep(cfg, before, c0);
    ReadDayIsStep(cfg, before, c1, view);
    ReadMonthIsStep(cfg, before, c2, view);
    CommitIsStep(cfg, before, c3);
    s1, s2, s3, s4 := Holding(before, c0), Holding(before, c1), Holding(before, c2), Holding(before, c3);
    s5 := before.(rows := view + [row], holder := None);
  }

  // ----- A settlement that arrives between the expiry and the commit -----

  /** The commit of a check overwrites the status of a row if and only if the check has a copy of it. */
  lemma CommitOverwritesIff(cfg: Settings, s: State, s': State, i: nat)
    requires Step(cfg, s, Commit, s') && i < |s.rows| && s.rows[i].status != ERROR
    ensures s'.rows[i] == s.rows[i] <==> s.rows[i].id !in s.holder.value.copies
    ensures s.rows[i].id in s.holder.value.copies ==> s'.rows[i] == Marked(s.rows[i])
  {
  }

  /** Free models, a daily limit, no monthly one. */
  ghost function FreeSettings(): Settings {
    Settings(10.0, 0.0, true, 2048, 7200, t => if t < 0 then t else 0, t => if t < 0 then t else 0,
             (provider, model) => Some(Rate(0.0, 0.0)))
  }

  lemma FreeRowCostsNothing(row: Row)
    ensures RowCost(FreeSettings().pricing, row) == Some(0.0)
  {
  }

  lemma {:induction false} FreeRowsAreAdmitted(rows: seq<Row>, now: int)
    ensures Unpriced(FreeSettings(), rows, FreeSettings().dayStart(now), now) == 0
    ensures Spent(FreeSettings(), rows, FreeSettings().dayStart(now), now) == 0.0
  {
    if rows != [] {
      FreeRowsAreAdmitted(rows[..|rows| - 1], now);
      FreeRowCostsNothing(rows[|rows| - 1]);
    }
  }

  lemma Extend(cfg: Settings, states: seq<State>, events: seq<Event>, e: Event, s: State)
    returns (states': seq<State>, events': seq<Event>)
    requires Run(cfg, states, events) && Step(cfg, states[|events|], e, s)
    ensures Run(cfg, states', events') && states' == states + [s] && events' == events + [e]
  {
    states', events' := states + [s], events + [e];
  }

  ghost function FreeReservation(id: string, now: int): Row { Reservation(FreeSettings(), id, "p", "m", 0, now) }

  /** A check takes the locks and expires what is stale. */
  lemma FreeCheckBegins(states: seq<State>, events: seq<Event>, id: string, now: int)
    returns (states': seq<State>, events': seq<Event>, check: Check)
    requires Run(FreeSettings(), states, events) && states[|events|].holder == None && id !in Ids(states[|events|].rows)
    ensures Run(FreeSettings(), states', events') && |events'| == |events| + 2 && states <= states' && events <= events'
    ensures check
      == Check(Expired, FreeReservation(id, now), 0.0, CopiesOf(FreeSettings(), states[|events|].rows, now), 0.0, 0.0)
    ensures states'[|events'|] == Holding(states[|events|], check)
  {
    var cfg, before, row := FreeSettings(), states[|events|], FreeReservation(id, now);
    FreeRowCostsNothing(row);
    check := Taken(cfg, row);
    LockIsStep(cfg, before, row);
    states', events' := Extend(cfg, states, events, Lock(row), Holding(before, check));
    ExpireIsStep(cfg, before, check);
    check := check.(stage := Expired, copies := CopiesOf(cfg, before.rows, now));
    states', events' := Extend(cfg, states', events', ExpireStale, Holding(before, check));
  }

  /** It reads both sums and commits. */
  lemma FreeCheckEnds(states: seq<State>, events: seq<Event>, before: State, check: Check)
    returns (states': seq<State>, events': seq<Event>)
    requires Run(FreeSettings(), states, events) && states[|events|] == Holding(before, check)
    requires check.stage == Expired && check.estimate == 0.0
    ensures Run(FreeSettings(), states', events') && |events'| == |events| + 3 && states <= states' && events <= events'
    ensures states'[|events'|] == before.(rows := Session(before.rows, check.copies.Keys) + [check.row], holder := None)
  {
    var cfg, now, view := FreeSettings(), check.row.createdAt, View(before.rows, check.copies);
    FreeRowsAreAdmitted(view, now);
    ReadDayIsStep(cfg, before, check, view);
    var read := check.(stage := DayRead, daySpent := Spent(cfg, view, cfg.dayStart(now), now));
    states', events' := Extend(cfg, states, events, ReadDay, Holding(before, read));
    ReadMonthIsStep(cfg, before, read, view);
    var both := read.(stage := MonthRead, monthSpent := Spent(cfg, view, cfg.monthStart(now), now));
    states', events' := Extend(cfg, states', events', ReadMonth, Holding(before, both));
    CommitIsStep(cfg, before, both);
    states', events' := Extend(cfg, states', events', Commit,
                               before.(rows := Session(before.rows, check.copies.Keys) + [check.row], holder := None));
  }

  /** The first call of all reserves. */
  lemma FirstReservation() returns (states: seq<State>, events: seq<Event>)
    ensures Run(FreeSettings(), states, events) && |events| == 5
    ensures states[5] == State([FreeReservation("a", 0)], [], None)
  {
    var check;
    states, events, check := FreeCheckBegins([INITIAL], [], "a", 0);
    assert CopiesOf(FreeSettings(), [], 0) == map[];
    states, events := FreeCheckEnds(states, events, INITIAL, check);
  }

  /**
   A run in which a call succeeds long after its reservation: its settlement is committed after a
   later check has expired the reservation and before that check commits, which marks it as expired.
   */
  lemma LateSettlementIsOverwritten() returns (states: seq<State>, events: seq<Event>, settled: Row)
    ensures Run(FreeSettings(), states, events) && |events| == 11
    ensures settled == FreeReservation("a", 0).(status := SUCCESS) && events[7] == Settle(0, settled)
    ensures |states[11].rows| == 2 && states[11].rows[0] == Marked(settled)
  {
    var cfg, row, now := FreeSettings(), FreeReservation("a", 0), 7201 * SECOND;
    settled := row.(status := SUCCESS);
    states, events := FirstReservation();
    var check;
    assert "b" !in Ids([row]);
    states, events, check := FreeCheckBegins(states, events, "b", now);
    assert [row][..0] == [] && Stale(cfg, row, now);
    assert check.copies == map["a" := Marked(row)];
    var before := State([settled], [OverrunOf(cfg, row, settled)], None);
    assert [row][0 := settled] == [settled] && [] + [OverrunOf(cfg, row, settled)] == [OverrunOf(cfg, row, settled)];
    assert Step(cfg, states[7], Settle(0, settled), Holding(before, check));
    states, events := Extend(cfg, states, events, Settle(0, settled), Holding(before, check));
    states, events := FreeCheckEnds(states, events, before, check);
  }
}
