/**
 The cluster-selection cache (dashboard/cluster_scope.py) as interleaved steps.

 Readers call ``_active_clusters``: a fast path that samples the clock and then reads the
 shared entry without the lock, and a locked path that samples again, re-checks, reads the
 default cluster and the active list from the database and stores the entry. Writers are
 database sessions whose flush and commit hooks clear the entry under the same lock.

 A database read is represented by the version it saw: the number of Cluster writes that
 had been committed. The session factory is fixed, so every entry has the right owner.

 A refill that finds no default cluster inserts one (shared/clusters.py:50-80). At most one
 default row can exist; the insert waits for another session's uncommitted one, fails against a
 committed one, and then reads the winner's row. Other processes write without these hooks.
 */
module ClusterCache {
  import opened Wrappers

  const TTL: real := 1.0

  datatype Entry = Entry(expires: real, defaultVersion: nat, listVersion: nat, readAt: real)

  datatype Reader =
    | Idle
    | Sampled(now: real)
    | Peeked(now: real, cached: Option<Entry>)
    | Waiting
    | Entered
    | Missed(now: real)
    | Inserting(now: real)
    | LostRace(now: real)
    | ReadDefault(now: real, defaultVersion: nat)
    | ReadList(now: real, loaded: Entry)
    | Seeding(now: real)
    | Returned(now: real, result: Entry)

  datatype Writer =
    | Quiet(dirty: bool)
    | Flushing
    | Flushed
    | Committed(version: nat)

  /**
   ``defaultExists``: the default row is committed; ``seeder``: the local writer that has inserted it without
   committing yet.
   */
  datatype State = State(
    clock: real, committed: nat, cleared: nat, cache: Option<Entry>, lock: Option<nat>,
    readers: map<nat, Reader>, writers: map<nat, Writer>, defaultExists: bool, seeder: Option<nat>)

  datatype Event =
    | Tick(clock: real)
    | Call(reader: nat)
    | Peek(reader: nat)
    | DecideFast(reader: nat)
    | Acquire(reader: nat)
    | DecideLocked(reader: nat)
    | LoadDefault(reader: nat)
    | Insert(reader: nat)
    | Reread(reader: nat)
    | LoadList(reader: nat)
    | Store(reader: nat)
    | SeedFlush(reader: nat)
    | Leave(reader: nat)
    | Flush(writer: nat, seeds: bool)
    | FlushHook(writer: nat)
    | Commit(writer: nat)
    | Rollback(writer: nat)
    | CommitHook(writer: nat)
    | WriteElsewhere(defaultExists: bool)

  predicate Usable(cached: Option<Entry>, now: real) {
    cached.Some? && cached.value.expires > now
  }

  function To(s: State, r: nat, reader: Reader): State {
    s.(readers := s.readers[r := reader])
  }

  ghost predicate ReaderStep(s: State, e: Event, s': State)
    requires e.Call? || e.Peek? || e.DecideFast? || e.Acquire? || e.DecideLocked? || e.LoadDefault?
             || e.Insert? || e.Reread? || e.LoadList? || e.Store? || e.SeedFlush? || e.Leave?
  {
    && e.reader in s.readers
    && var r := e.reader;
       var reader := s.readers[r];
       match e
       case Call(_) => reader == Idle && s' == To(s, r, Sampled(s.clock))
       case Peek(_) => reader.Sampled? && s' == To(s, r, Peeked(reader.now, s.cache))
       case DecideFast(_) =>
         && reader.Peeked?
         && s' == To(s, r,
              if Usable(reader.cached, reader.now) then Returned(reader.now, reader.cached.value) else Waiting)
       case Acquire(_) => reader == Waiting && s.lock == None && s' == To(s, r, Entered).(lock := Some(r))
       case DecideLocked(_) =>
         && reader == Entered
         && s' == if Usable(s.cache, s.clock) then To(s, r, Returned(s.clock, s.cache.value)).(lock := None)
                  else To(s, r, Missed(s.clock))
       case LoadDefault(_) =>
         && reader.Missed?
         && s' == To(s, r, if s.defaultExists then ReadDefault(reader.now, s.committed) else Inserting(reader.now))
       case Insert(_) =>
         // The unique index decides: the row is inserted, or an integrity error rolls the session back.
         && reader.Inserting? && s.seeder == None
         && s' == To(s, r, if s.defaultExists then LostRace(reader.now) else Seeding(reader.now))
       case Reread(_) =>
         && reader.LostRace?
         && s' == if s.defaultExists then To(s, r, ReadDefault(reader.now, s.committed))
                  else To(s, r, Idle).(lock := None)
       case LoadList(_) =>
         && reader.ReadDefault?
         && s' == To(s, r, ReadList(reader.now, Entry(reader.now + TTL, reader.defaultVersion, s.committed, s.clock)))
       case Store(_) =>
         && reader.ReadList?
         && s' == To(s, r, Returned(reader.now, reader.loaded)).(cache := Some(reader.loaded), lock := None)
       case SeedFlush(_) =>
         // After the flush of the new default row the flush hook wants the lock; the commit would follow.
         && reader.Seeding? && s.lock == None
         && s' == To(s, r, ReadDefault(reader.now, s.committed + 1))
                  .(cache := None, committed := s.committed + 1, cleared := s.committed + 1, defaultExists := true)
       case Leave(_) => reader.Returned? && s' == To(s, r, Idle)
  }

  ghost predicate WriterStep(s: State, e: Event, s': State)
    requires e.Flush? || e.FlushHook? || e.Commit? || e.Rollback? || e.CommitHook?
  {
    && e.writer in s.writers
    && var w := e.writer;
       var writer := s.writers[w];
       match e
       case Flush(_, seeds) =>
         && (writer.Quiet? || writer == Flushed)
         && (seeds ==> MayInsert(s))
         && s' == s.(writers := s.writers[w := Flushing], seeder := if seeds then Some(w) else s.seeder)
       case FlushHook(_) =>
         writer == Flushing && s.lock == None && s' == s.(cache := None, writers := s.writers[w := Flushed])
       case Commit(_) =>
         if writer == Flushed then
           s' == s.(committed := s.committed + 1, writers := s.writers[w := Committed(s.committed + 1)],
                    defaultExists := s.defaultExists || s.seeder == Some(w),
                    seeder := if s.seeder == Some(w) then None else s.seeder)
         else
           // A rolled-back write left the flag behind: the commit clears without a new version.
           writer == Quiet(true) && s' == s.(writers := s.writers[w := Committed(0)])
       case Rollback(_) =>
         && writer == Flushed
         && s' == s.(writers := s.writers[w := Quiet(true)], seeder := if s.seeder == Some(w) then None else s.seeder)
       case CommitHook(_) =>
         && writer.Committed? && s.lock == None
         && s' == s.(cache := None, writers := s.writers[w := Quiet(false)],
                     cleared := if writer.version > s.cleared then writer.version else s.cleared)
  }

  /** No committed or uncommitted default row is in the way of another one. */
  ghost predicate MayInsert(s: State) {
    !s.defaultExists && s.seeder == None && forall r :: r in s.readers ==> !s.readers[r].Seeding?
  }

  ghost predicate Step(s: State, e: Event, s': State) {
    match e
    case Tick(clock) => clock >= s.clock && s' == s.(clock := clock)
    case Flush(_, _) => WriterStep(s, e, s')
    case FlushHook(_) => WriterStep(s, e, s')
    case Commit(_) => WriterStep(s, e, s')
    case Rollback(_) => WriterStep(s, e, s')
    case CommitHook(_) => WriterStep(s, e, s')
    case WriteElsewhere(defaultExists) =>
      // Another process creates or removes Cluster rows; no hook runs here.
      && (defaultExists ==> s.defaultExists || MayInsert(s))
      && s' == s.(committed := s.committed + 1, defaultExists := defaultExists)
    case _ => ReaderStep(s, e, s')
  }

  ghost predicate Init(s: State) {
    && s.committed == s.cleared == 0 && s.cache == None && s.lock == None && s.seeder == None
    && (forall r :: r in s.readers ==> s.readers[r] == Idle)
    && (forall w :: w in s.writers ==> s.writers[w] == Quiet(false))
  }

  ghost predicate Run(states: seq<State>, events: seq<Event>) {
    && |states| == |events| + 1
    && Init(states[0])
    && forall i :: 0 <= i < |events| ==> Step(states[i], events[i], states[i + 1])
  }

  // ----- What every step keeps -----

  predicate InLock(reader: Reader) {
    || reader.Entered? || reader.Missed? || reader.Inserting?
    || reader.LostRace? || reader.ReadDefault? || reader.ReadList?
    || reader.Seeding?
  }

  predicate EntryIsFresh(entry: Entry, version: nat) {
    entry.defaultVersion >= version && entry.listVersion >= version
  }

  predicate EntryIsTimed(entry: Entry, clock: real) {
    entry.expires <= entry.readAt + TTL && entry.readAt <= clock
  }

  predicate ReaderIsTimed(reader: Reader, clock: real) {
    match reader
    case Peeked(_, cached) => cached.Some? ==> EntryIsTimed(cached.value, clock)
    case Missed(now) => now <= clock
    case Inserting(now) => now <= clock
    case LostRace(now) => now <= clock
    case Seeding(now) => now <= clock
    case ReadDefault(now, _) => now <= clock
    case ReadList(now, loaded) => now <= loaded.readAt && EntryIsTimed(loaded, clock)
    case Returned(now, result) => now - result.readAt < TTL
    case _ => true
  }

  predicate RefillIsFresh(reader: Reader, version: nat) {
    && (reader.ReadDefault? ==> reader.defaultVersion >= version)
    && (reader.ReadList? ==> EntryIsFresh(reader.loaded, version))
  }

  ghost predicate Invariant(s: State) {
    && s.cleared <= s.committed
    && (forall w :: w in s.writers && s.writers[w].Committed? ==> s.writers[w].version <= s.committed)
    && (s.cache.Some? ==> EntryIsFresh(s.cache.value, s.cleared) && EntryIsTimed(s.cache.value, s.clock))
    && (forall r :: r in s.readers ==>
         && (InLock(s.readers[r]) <==> s.lock == Some(r))
         && RefillIsFresh(s.readers[r], s.cleared)
         && ReaderIsTimed(s.readers[r], s.clock))
    && (s.lock.Some? ==> s.lock.value in s.readers)
  }

  /** The steps of a session that writes a Cluster. */
  predicate ByWriter(e: Event) { e.Flush? || e.FlushHook? || e.Commit? || e.Rollback? || e.CommitHook? }

  /** The steps of a reader inside the lock, and the one that takes it. */
  predicate InsideLock(e: Event) {
    || e.Acquire? || e.DecideLocked? || e.LoadDefault? || e.Insert? || e.Reread?
    || e.LoadList? || e.Store? || e.SeedFlush? || e.Leave?
  }

  lemma StepKeepsInvariant(s: State, e: Event, s': State)
    requires Invariant(s) && Step(s, e, s')
    ensures Invariant(s')
  {
    if ByWriter(e) {
      WriterKeepsInvariant(s, e, s');
    } else if InsideLock(e) {
      RefillKeepsInvariant(s, e, s');
    } else {
      OutsiderKeepsInvariant(s, e, s');
    }
  }

  lemma WriterKeepsInvariant(s: State, e: Event, s': State)
    requires Invariant(s) && Step(s, e, s') && ByWriter(e)
    ensures Invariant(s')
  {
  }

  /** The part of a refill that reads or inserts the default row. */
  predicate OnDefault(e: Event) { e.LoadDefault? || e.Insert? || e.Reread? || e.SeedFlush? }

  lemma RefillKeepsInvariant(s: State, e: Event, s': State)
    requires Invariant(s) && Step(s, e, s') && InsideLock(e)
    ensures Invariant(s')
  {
    if OnDefault(e) {
      DefaultKeepsInvariant(s, e, s');
    } else if e.LoadList? || e.Store? {
      ListKeepsInvariant(s, e, s');
    } else if e.DecideLocked? {
      DecidingKeepsInvariant(s, e, s');
    } else {
      LockKeepsInvariant(s, e, s');
    }
  }

  lemma DefaultKeepsInvariant(s: State, e: Event, s': State)
    requires Invariant(s) && Step(s, e, s') && OnDefault(e)
    ensures Invariant(s')
  {
  }

  lemma ListKeepsInvariant(s: State, e: Event, s': State)
    requires Invariant(s) && Step(s, e, s') && (e.LoadList? || e.Store?)
    ensures Invariant(s')
  {
  }

  lemma LockKeepsInvariant(s: State, e: Event, s': State)
    requires Invariant(s) && Step(s, e, s') && (e.Acquire? || e.Leave?)
    ensures Invariant(s')
  {
  }

  lemma DecidingKeepsInvariant(s: State, e: Event, s': State)
    requires Invariant(s) && Step(s, e, s') && e.DecideLocked?
    ensures Invariant(s')
  {
  }

  lemma OutsiderKeepsInvariant(s: State, e: Event, s': State)
    requires Invariant(s) && Step(s, e, s') && !ByWriter(e) && !InsideLock(e)
    ensures Invariant(s')
  {
    if e.Tick? || e.WriteElsewhere? {
      WorldKeepsInvariant(s, e, s');
    } else {
      FastPathKeepsInvariant(s, e, s');
    }
  }

  lemma WorldKeepsInvariant(s: State, e: Event, s': State)
    requires Invariant(s) && Step(s, e, s') && (e.Tick? || e.WriteElsewhere?)
    ensures Invariant(s')
  {
  }

  lemma FastPathKeepsInvariant(s: State, e: Event, s': State)
    requires Invariant(s) && Step(s, e, s') && (e.Call? || e.Peek? || e.DecideFast?)
    ensures Invariant(s')
  {
  }

  lemma {:induction false} RunKeepsInvariant(states: seq<State>, events: seq<Event>, i: nat)
    requires Run(states, events) && i <= |events|
    ensures Invariant(states[i])
  {
    if i > 0 {
      RunKeepsInvariant(states, events, i - 1);
      StepKeepsInvariant(states[i - 1], events[i - 1], states[i]);
    }
  }

  // ----- Freshness -----

  /** Whatever reader ``r`` has taken since the hook for ``version`` returned was read after that commit. */
  ghost predicate SeesAtLeast(s: State, r: nat, version: nat) {
    && r in s.readers && version <= s.cleared
    && match s.readers[r]
       case Peeked(_, cached) => cached.Some? ==> EntryIsFresh(cached.value, version)
       case Returned(_, result) => EntryIsFresh(result, version)
       case _ => true
  }

  lemma StepKeepsView(s: State, e: Event, s': State, r: nat, version: nat)
    requires Invariant(s) && Step(s, e, s') && SeesAtLeast(s, r, version)
    ensures SeesAtLeast(s', r, version)
  {
    if ByWriter(e) {
      WriterKeepsView(s, e, s', r, version);
    } else if InsideLock(e) {
      RefillKeepsView(s, e, s', r, version);
    }
  }

  lemma WriterKeepsView(s: State, e: Event, s': State, r: nat, version: nat)
    requires Invariant(s) && Step(s, e, s') && ByWriter(e) && SeesAtLeast(s, r, version)
    ensures SeesAtLeast(s', r, version)
  {
  }

  lemma RefillKeepsView(s: State, e: Event, s': State, r: nat, version: nat)
    requires Invariant(s) && Step(s, e, s') && InsideLock(e) && SeesAtLeast(s, r, version)
    ensures SeesAtLeast(s', r, version)
  {
  }

  lemma {:induction false} ViewStaysFresh(states: seq<State>, events: seq<Event>, r: nat, version: nat, i: nat, k: nat)
    requires |states| == |events| + 1 && i <= k <= |events|
    requires forall j :: i <= j < k ==> Step(states[j], events[j], states[j + 1])
    requires Invariant(states[i]) && SeesAtLeast(states[i], r, version)
    ensures Invariant(states[k]) && SeesAtLeast(states[k], r, version)
    decreases k
  {
    if i < k {
      ViewStaysFresh(states, events, r, version, i, k - 1);
      StepKeepsInvariant(states[k - 1], events[k - 1], states[k]);
      StepKeepsView(states[k - 1], events[k - 1], states[k], r, version);
    }
  }

  /** The commit hook of the write that became ``version`` returns in this step. */
  ghost predicate HookReturns(s: State, e: Event, version: nat) {
    e.CommitHook? && e.writer in s.writers && s.writers[e.writer] == Committed(version)
  }

  /**
   Once the commit hook of a Cluster write has returned (step ``h``), a call that starts later
   never returns a default or a list read before that commit, whatever runs in between.
   */
  lemma NoStaleSelectionAfterCommitHook(states: seq<State>, events: seq<Event>, version: nat, h: nat, i: nat, k: nat,
      r: nat)
    requires Run(states, events) && h < i <= k <= |events|
    requires HookReturns(states[h], events[h], version)
    requires r in states[i].readers && states[i].readers[r] == Idle
    requires r in states[k].readers && states[k].readers[r].Returned?
    ensures EntryIsFresh(states[k].readers[r].result, version)
  {
    assert Step(states[h], events[h], states[h + 1]);
    ClearedNeverDrops(states, events, h + 1, i);
    RunKeepsInvariant(states, events, i);
    ViewStaysFresh(states, events, r, version, i, k);
  }

  lemma {:induction false} ClearedNeverDrops(states: seq<State>, events: seq<Event>, i: nat, k: nat)
    requires Run(states, events) && i <= k <= |events|
    ensures states[i].cleared <= states[k].cleared
    decreases k
  {
    if i < k {
      ClearedNeverDrops(states, events, i, k - 1);
      RunKeepsInvariant(states, events, k - 1);
      assert Step(states[k - 1], events[k - 1], states[k]);
    }
  }

  /** A returned list was read less than the TTL before the clock sample the reader decided on. */
  lemma ReturnedListIsYoung(states: seq<State>, events: seq<Event>, i: nat, r: nat)
    requires Run(states, events) && i <= |events|
    requires r in states[i].readers && states[i].readers[r].Returned?
    ensures states[i].readers[r].now - states[i].readers[r].result.readAt < TTL
  {
    RunKeepsInvariant(states, events, i);
  }

  // ----- A refill that inserts the default cluster -----

  /** The refill of ``r`` waits in its own flush hook for the lock it holds. */
  ghost predicate Stuck(s: State, r: nat) {
    r in s.readers && s.readers[r].Seeding? && s.lock == Some(r)
  }

  /** The default row of refill ``r`` is inserted while there is no other. */
  ghost predicate Seeds(s: State, e: Event, r: nat) {
    e == Insert(r) && !s.defaultExists
  }

  lemma StuckStaysStuck(s: State, e: Event, s': State, r: nat)
    requires Invariant(s) && Step(s, e, s') && Stuck(s, r)
    ensures Stuck(s', r) && s'.cleared == s.cleared
  {
    if ByWriter(e) {
      WriterLeavesStuck(s, e, s', r);
    } else if InsideLock(e) {
      RefillLeavesStuck(s, e, s', r);
    }
  }

  lemma WriterLeavesStuck(s: State, e: Event, s': State, r: nat)
    requires Step(s, e, s') && Stuck(s, r) && ByWriter(e)
    ensures Stuck(s', r) && s'.cleared == s.cleared
  {
  }

  lemma RefillLeavesStuck(s: State, e: Event, s': State, r: nat)
    requires Invariant(s) && Step(s, e, s') && Stuck(s, r) && InsideLock(e)
    ensures Stuck(s', r) && s'.cleared == s.cleared
  {
  }

  lemma StuckBySeedingOnly(s: State, e: Event, s': State, r: nat)
    requires Invariant(s) && Step(s, e, s') && Stuck(s', r) && !Stuck(s, r)
    ensures Seeds(s, e, r)
  {
  }

  lemma SeedingIsStuck(s: State, e: Event, s': State, r: nat)
    requires Invariant(s) && Step(s, e, s') && Seeds(s, e, r)
    ensures Stuck(s', r)
  {
  }

  lemma {:induction false} SeedingBlocksForever(states: seq<State>, events: seq<Event>, r: nat, i: nat, k: nat)
    requires Run(states, events) && i <= k <= |events| && Stuck(states[i], r)
    ensures Stuck(states[k], r) && states[k].cleared == states[i].cleared
    decreases k
  {
    if i < k {
      SeedingBlocksForever(states, events, r, i, k - 1);
      RunKeepsInvariant(states, events, k - 1);
      StuckStaysStuck(states[k - 1], events[k - 1], states[k], r);
    }
  }

  /** The default row of refill ``r`` was inserted in one of the first ``k`` steps, without another one there. */
  ghost predicate HasSeeded(states: seq<State>, events: seq<Event>, r: nat, k: nat)
    requires k <= |events| <= |states|
  {
    exists i :: 0 <= i < k && Seeds(states[i], events[i], r)
  }

  lemma StuckStep(s: State, e: Event, s': State, r: nat)
    requires Invariant(s) && Step(s, e, s')
    ensures Stuck(s', r) <==> Stuck(s, r) || Seeds(s, e, r)
  {
    if Stuck(s, r) {
      StuckStaysStuck(s, e, s', r);
    } else if Seeds(s, e, r) {
      SeedingIsStuck(s, e, s', r);
    } else if Stuck(s', r) {
      StuckBySeedingOnly(s, e, s', r);
    }
  }

  /**
   The lock is not reentrant. In any state of any run a refill is stuck, for good, if and only if its
   INSERT was executed while no default row existed; one that lost the race to another row goes on.
   */
  lemma {:induction false} RefillBlocksIffDefaultMissing(states: seq<State>, events: seq<Event>, r: nat, k: nat)
    requires Run(states, events) && k <= |events|
    ensures Stuck(states[k], r) <==> HasSeeded(states, events, r, k)
  {
    if k > 0 {
      RefillBlocksIffDefaultMissing(states, events, r, k - 1);
      RunKeepsInvariant(states, events, k - 1);
      StuckStep(states[k - 1], events[k - 1], states[k], r);
      assert HasSeeded(states, events, r, k)
        <==> HasSeeded(states, events, r, k - 1) || Seeds(states[k - 1], events[k - 1], r);
    }
  }

  /**
   A local session has inserted the default row and waits in its flush hook for the lock; the refill waits for
   that row.
   */
  ghost predicate Deadlocked(s: State, r: nat, w: nat) {
    && r in s.readers && s.readers[r].Inserting? && s.lock == Some(r)
    && w in s.writers && s.writers[w] == Flushing && s.seeder == Some(w)
  }

  lemma {:induction false} SeederAndRefillBlockEachOther(
      states: seq<State>, events: seq<Event>, r: nat, w: nat, i: nat, k: nat)
    requires Run(states, events) && i <= k <= |events| && Deadlocked(states[i], r, w)
    ensures Deadlocked(states[k], r, w)
    decreases k
  {
    if i < k {
      SeederAndRefillBlockEachOther(states, events, r, w, i, k - 1);
      RunKeepsInvariant(states, events, k - 1);
      DeadlockStays(states[k - 1], events[k - 1], states[k], r, w);
    }
  }

  lemma DeadlockStays(s: State, e: Event, s': State, r: nat, w: nat)
    requires Invariant(s) && Step(s, e, s') && Deadlocked(s, r, w)
    ensures Deadlocked(s', r, w)
  {
  }

  /** A session inserts the default row while the refill waits to, or the refill misses it while its seeder waits. */
  ghost predicate Meets(s: State, e: Event, r: nat, w: nat) {
    || (e.Flush? && e.writer == w && (e.seeds || s.seeder == Some(w))
        && r in s.readers && s.readers[r].Inserting? && s.lock == Some(r))
    || (e == LoadDefault(r) && !s.defaultExists && s.seeder == Some(w) && w in s.writers && s.writers[w] == Flushing)
  }

  lemma MeetingIsDeadlock(s: State, e: Event, s': State, r: nat, w: nat)
    requires Invariant(s) && Step(s, e, s') && !Deadlocked(s, r, w)
    ensures Deadlocked(s', r, w) <==> Meets(s, e, r, w)
  {
    if ByWriter(e) {
      WriterMeets(s, e, s', r, w);
    } else if InsideLock(e) {
      RefillMeets(s, e, s', r, w);
    }
  }

  lemma WriterMeets(s: State, e: Event, s': State, r: nat, w: nat)
    requires Step(s, e, s') && ByWriter(e) && !Deadlocked(s, r, w)
    ensures Deadlocked(s', r, w) <==> Meets(s, e, r, w)
  {
  }

  lemma RefillMeets(s: State, e: Event, s': State, r: nat, w: nat)
    requires Invariant(s) && Step(s, e, s') && InsideLock(e) && !Deadlocked(s, r, w)
    ensures Deadlocked(s', r, w) <==> Meets(s, e, r, w)
  {
  }

  /** The two have met in one of the first ``k`` steps. */
  ghost predicate HaveMet(states: seq<State>, events: seq<Event>, r: nat, w: nat, k: nat)
    requires k <= |events| <= |states|
  {
    exists i :: 0 <= i < k && Meets(states[i], events[i], r, w)
  }

  lemma {:induction false} DeadlockArisesIff(states: seq<State>, events: seq<Event>, r: nat, w: nat, k: nat)
    requires Run(states, events) && k <= |events|
    ensures Deadlocked(states[k], r, w) <==> HaveMet(states, events, r, w, k)
  {
    if k > 0 {
      DeadlockArisesIff(states, events, r, w, k - 1);
      RunKeepsInvariant(states, events, k - 1);
      DeadlockStep(states[k - 1], events[k - 1], states[k], r, w);
      assert HaveMet(states, events, r, w, k)
        <==> HaveMet(states, events, r, w, k - 1) || Meets(states[k - 1], events[k - 1], r, w);
    }
  }

  lemma DeadlockStep(s: State, e: Event, s': State, r: nat, w: nat)
    requires Invariant(s) && Step(s, e, s')
    ensures Deadlocked(s', r, w) <==> Deadlocked(s, r, w) || Meets(s, e, r, w)
  {
    if Deadlocked(s, r, w) {
      DeadlockStays(s, e, s', r, w);
    } else {
      MeetingIsDeadlock(s, e, s', r, w);
    }
  }

  // ----- When a refill can still give up the lock -----

  /** An uncommitted default row belongs to a session between its flush and its commit, and is the only one. */
  ghost predicate SeederIsSound(s: State) {
    && (s.seeder.Some? ==>
         s.seeder.value in s.writers && s.writers[s.seeder.value] in {Flushing, Flushed})
    && (s.defaultExists ==> s.seeder == None)
  }

  lemma StepKeepsSeeder(s: State, e: Event, s': State)
    requires Invariant(s) && SeederIsSound(s) && Step(s, e, s')
    ensures SeederIsSound(s')
  {
    if ByWriter(e) {
      WriterKeepsSeeder(s, e, s');
    } else if InsideLock(e) {
      RefillKeepsSeeder(s, e, s');
    }
  }

  lemma WriterKeepsSeeder(s: State, e: Event, s': State)
    requires SeederIsSound(s) && Step(s, e, s') && ByWriter(e)
    ensures SeederIsSound(s')
  {
  }

  lemma RefillKeepsSeeder(s: State, e: Event, s': State)
    requires Invariant(s) && SeederIsSound(s) && Step(s, e, s') && InsideLock(e)
    ensures SeederIsSound(s')
  {
  }

  lemma {:induction false} RunKeepsSeeder(states: seq<State>, events: seq<Event>, i: nat)
    requires Run(states, events) && i <= |events|
    ensures SeederIsSound(states[i])
  {
    if i > 0 {
      RunKeepsSeeder(states, events, i - 1);
      RunKeepsInvariant(states, events, i - 1);
      StepKeepsSeeder(states[i - 1], events[i - 1], states[i]);
    }
  }

  /** A session holds the uncommitted default row and waits in its flush hook. */
  ghost predicate SeederWaits(s: State) {
    && !s.defaultExists && s.seeder.Some?
    && s.seeder.value in s.writers && s.writers[s.seeder.value] == Flushing
  }

  /** The refill waits in its own hook, or is bound to wait for the row of a session that waits for the lock. */
  ghost predicate Doomed(s: State, r: nat) {
    && r in s.readers && s.lock == Some(r)
    && var reader := s.readers[r];
       || reader.Seeding?
       || (SeederWaits(s)
           && (reader.Inserting? || reader.Missed? || (reader == Entered && !Usable(s.cache, s.clock))))
  }

  lemma DoomedStays(s: State, e: Event, s': State, r: nat)
    requires Invariant(s) && Step(s, e, s') && Doomed(s, r)
    ensures Doomed(s', r)
  {
    if ByWriter(e) {
      WriterLeavesDoomed(s, e, s', r);
    } else if InsideLock(e) {
      RefillLeavesDoomed(s, e, s', r);
    }
  }

  lemma WriterLeavesDoomed(s: State, e: Event, s': State, r: nat)
    requires Step(s, e, s') && ByWriter(e) && Doomed(s, r)
    ensures Doomed(s', r)
  {
  }

  lemma RefillLeavesDoomed(s: State, e: Event, s': State, r: nat)
    requires Invariant(s) && Step(s, e, s') && InsideLock(e) && Doomed(s, r)
    ensures Doomed(s', r)
  {
  }

  ghost predicate Path(states: seq<State>, events: seq<Event>) {
    |states| == |events| + 1 && forall i :: 0 <= i < |events| ==> Step(states[i], events[i], states[i + 1])
  }

  lemma {:induction false} DoomedForever(states: seq<State>, events: seq<Event>, r: nat, k: nat)
    requires Path(states, events) && k <= |events| && Invariant(states[0]) && Doomed(states[0], r)
    ensures Invariant(states[k]) && Doomed(states[k], r)
  {
    if k > 0 {
      DoomedForever(states, events, r, k - 1);
      StepKeepsInvariant(states[k - 1], events[k - 1], states[k]);
      DoomedStays(states[k - 1], events[k - 1], states[k], r);
    }
  }

  /** Some continuation leads to a state in which ``r`` no longer holds the lock. */
  ghost predicate CanRelease(s: State, r: nat) {
    exists states: seq<State>, events: seq<Event> :: Path(states, events) && states[0] == s
      && states[|events|].lock != Some(r)
  }

  lemma Released(s: State, r: nat)
    requires s.lock != Some(r)
    ensures CanRelease(s, r)
  {
    assert Path([s], []);
  }

  lemma ReleasesLater(s: State, e: Event, s': State, r: nat)
    requires Step(s, e, s') && CanRelease(s', r)
    ensures CanRelease(s, r)
  {
    var states: seq<State>, events: seq<Event> :| Path(states, events) && states[0] == s'
      && states[|events|].lock != Some(r);
    assert Path([s] + states, [e] + events);
  }

  lemma ReleasesFromStore(s: State, r: nat)
    requires r in s.readers && s.lock == Some(r) && s.readers[r].ReadList?
    ensures CanRelease(s, r)
  {
    var reader := s.readers[r];
    var s' := To(s, r, Returned(reader.now, reader.loaded)).(cache := Some(reader.loaded), lock := None);
    Released(s', r);
    ReleasesLater(s, Store(r), s', r);
  }

  lemma ReleasesFromList(s: State, r: nat)
    requires r in s.readers && s.lock == Some(r) && s.readers[r].ReadDefault?
    ensures CanRelease(s, r)
  {
    var reader := s.readers[r];
    var s' := To(s, r, ReadList(reader.now, Entry(reader.now + TTL, reader.defaultVersion, s.committed, s.clock)));
    ReleasesFromStore(s', r);
    ReleasesLater(s, LoadList(r), s', r);
  }

  lemma ReleasesAfterLostRace(s: State, r: nat)
    requires r in s.readers && s.lock == Some(r) && s.readers[r].LostRace?
    ensures CanRelease(s, r)
  {
    if s.defaultExists {
      var s' := To(s, r, ReadDefault(s.readers[r].now, s.committed));
      ReleasesFromList(s', r);
      ReleasesLater(s, Reread(r), s', r);
    } else {
      var s' := To(s, r, Idle).(lock := None);
      Released(s', r);
      ReleasesLater(s, Reread(r), s', r);
    }
  }

  /** With a committed default row a refill goes on, whether or not it has missed it before. */
  lemma ReleasesWithDefault(s: State, r: nat)
    requires r in s.readers && s.lock == Some(r) && (s.readers[r].Missed? || s.readers[r].Inserting?)
    requires s.defaultExists && s.seeder == None
    ensures CanRelease(s, r)
  {
    var reader := s.readers[r];
    if reader.Missed? {
      var s' := To(s, r, ReadDefault(reader.now, s.committed));
      ReleasesFromList(s', r);
      ReleasesLater(s, LoadDefault(r), s', r);
    } else {
      var s' := To(s, r, LostRace(reader.now));
      ReleasesAfterLostRace(s', r);
      ReleasesLater(s, Insert(r), s', r);
    }
  }

  /** Without one, another process or the session that has inserted it may still commit it. */
  lemma ReleasesWithoutDefault(s: State, r: nat)
    requires Invariant(s) && SeederIsSound(s) && !SeederWaits(s)
    requires r in s.readers && s.lock == Some(r) && (s.readers[r].Missed? || s.readers[r].Inserting?)
    ensures CanRelease(s, r)
  {
    if s.defaultExists {
      ReleasesWithDefault(s, r);
    } else if s.seeder == None {
      var s' := s.(committed := s.committed + 1, defaultExists := true);
      assert MayInsert(s);
      ReleasesWithDefault(s', r);
      ReleasesLater(s, WriteElsewhere(true), s', r);
    } else {
      var w := s.seeder.value;
      var s' := s.(committed := s.committed + 1, writers := s.writers[w := Committed(s.committed + 1)],
                   defaultExists := true, seeder := None);
      ReleasesWithDefault(s', r);
      ReleasesLater(s, Commit(w), s', r);
    }
  }

  lemma ReleasesFromEntry(s: State, r: nat)
    requires Invariant(s) && SeederIsSound(s) && r in s.readers && s.lock == Some(r) && s.readers[r] == Entered
    requires Usable(s.cache, s.clock) || !SeederWaits(s)
    ensures CanRelease(s, r)
  {
    if Usable(s.cache, s.clock) {
      var s' := To(s, r, Returned(s.clock, s.cache.value)).(lock := None);
      Released(s', r);
      ReleasesLater(s, DecideLocked(r), s', r);
    } else {
      var s' := To(s, r, Missed(s.clock));
      StepKeepsInvariant(s, DecideLocked(r), s');
      StepKeepsSeeder(s, DecideLocked(r), s');
      ReleasesWithoutDefault(s', r);
      ReleasesLater(s, DecideLocked(r), s', r);
    }
  }

  /** In any state of any run, a reader that holds the lock can still give it up if and only if it is not doomed. */
  lemma RefillReturnsIff(states: seq<State>, events: seq<Event>, r: nat, k: nat)
    requires Run(states, events) && k <= |events| && states[k].lock == Some(r)
    ensures CanRelease(states[k], r) <==> !Doomed(states[k], r)
  {
    var s := states[k];
    RunKeepsInvariant(states, events, k);
    RunKeepsSeeder(states, events, k);
    if Doomed(s, r) {
      forall later: seq<State>, steps: seq<Event> | Path(later, steps) && later[0] == s
        ensures later[|steps|].lock == Some(r)
      {
        DoomedForever(later, steps, r, |steps|);
      }
    } else {
      NotDoomedReleases(s, r);
    }
  }

  lemma NotDoomedReleases(s: State, r: nat)
    requires Invariant(s) && SeederIsSound(s) && s.lock == Some(r) && !Doomed(s, r)
    ensures CanRelease(s, r)
  {
    assert r in s.readers && InLock(s.readers[r]);
    match s.readers[r]
    case Entered => ReleasesFromEntry(s, r);
    case Missed(_) => ReleasesWithoutDefault(s, r);
    case Inserting(_) => ReleasesWithoutDefault(s, r);
    case LostRace(_) => ReleasesAfterLostRace(s, r);
    case ReadDefault(_, _) => ReleasesFromList(s, r);
    case ReadList(_, _) => ReleasesFromStore(s, r);
  }

  // ----- When an entry is used -----

  /** A refill that finds the default row stores what it read, for one second from its own clock sample. */
  lemma RefillStores(s: State, r: nat) returns (s1: State, s2: State, s3: State)
    requires r in s.readers && s.readers[r].Missed? && s.defaultExists
    ensures Step(s, LoadDefault(r), s1) && Step(s1, LoadList(r), s2) && Step(s2, Store(r), s3)
    ensures s3.cache == Some(Entry(s.readers[r].now + 1.0, s.committed, s.committed, s.clock)) && s3.lock == None
    ensures s3.readers == s.readers[r := Returned(s.readers[r].now, s3.cache.value)]
  {
    var now, entry := s.readers[r].now, Entry(s.readers[r].now + TTL, s.committed, s.committed, s.clock);
    s1 := To(s, r, ReadDefault(now, s.committed));
    s2 := To(s1, r, ReadList(now, entry));
    s3 := To(s2, r, Returned(now, entry)).(cache := Some(entry), lock := None);
    assert s3.readers == s.readers[r := Returned(now, entry)];
  }

  /** A call returns a cached entry without the lock if and only if the entry has not expired. */
  lemma CallReusesIff(s: State, r: nat) returns (s1: State, s2: State, s3: State)
    requires r in s.readers && s.readers[r] == Idle
    ensures Step(s, Call(r), s1) && Step(s1, Peek(r), s2) && Step(s2, DecideFast(r), s3)
    ensures s3 == s.(readers := s3.readers) && s3.readers == s.readers[r := s3.readers[r]]
    ensures s3.readers[r] ==
      if s.cache != None && s.clock < s.cache.value.expires then Returned(s.clock, s.cache.value) else Waiting
  {
    s1 := To(s, r, Sampled(s.clock));
    s2 := To(s1, r, Peeked(s.clock, s.cache));
    s3 := To(s2, r, if Usable(s.cache, s.clock) then Returned(s.clock, s.cache.value) else Waiting);
    assert s3.readers == s.readers[r := s3.readers[r]];
  }

  /** So does a reader that had to wait for the lock, by the clock and the entry it finds then. */
  lemma WaiterReusesIff(s: State, r: nat) returns (s1: State, s2: State)
    requires r in s.readers && s.readers[r] == Waiting && s.lock == None
    ensures Step(s, Acquire(r), s1) && Step(s1, DecideLocked(r), s2)
    ensures if s.cache != None && s.clock < s.cache.value.expires
            then s2.readers[r] == Returned(s.clock, s.cache.value) && s2.lock == None
            else s2.readers[r] == Missed(s.clock) && s2.lock == Some(r)
  {
    s1 := To(s, r, Entered).(lock := Some(r));
    s2 := if Usable(s.cache, s.clock) then To(s1, r, Returned(s.clock, s.cache.value)).(lock := None)
          else To(s1, r, Missed(s.clock));
  }

  // ----- Clocks, other processes and rolled-back writes -----

  /** Time passes at any moment, and another process may remove every default row. */
  lemma OutsideNeverWaits(s: State, clock: real) returns (later: State, removed: State)
    requires clock >= s.clock
    ensures Step(s, Tick(clock), later) && later == s.(clock := clock)
    ensures Step(s, WriteElsewhere(false), removed)
    ensures removed == s.(committed := s.committed + 1, defaultExists := false)
  {
    later := s.(clock := clock);
    removed := s.(committed := s.committed + 1, defaultExists := false);
  }

  /** A write that is rolled back leaves its mark: the next commit of the session clears the cache once more. */
  lemma RolledBackWriteStillClears(s: State, w: nat) returns (s1: State, s2: State, s3: State)
    requires w in s.writers && s.writers[w] == Flushed && s.lock == None
    ensures Step(s, Rollback(w), s1) && Step(s1, Commit(w), s2) && Step(s2, CommitHook(w), s3)
    ensures s3.cache == None && s3.committed == s.committed && s3.cleared == s.cleared
    ensures s3.writers == s.writers[w := Quiet(false)]
  {
    s1 := s.(writers := s.writers[w := Quiet(true)], seeder := if s.seeder == Some(w) then None else s.seeder);
    s2 := s1.(writers := s1.writers[w := Committed(0)]);
    s3 := s2.(cache := None, writers := s2.writers[w := Quiet(false)]);
    assert s3.writers == s.writers[w := Quiet(false)];
  }

  // ----- Runs that get there -----

  /** Nothing happened yet, with one reader, one writer and no default row. */
  const FRESH := State(0.0, 0, 0, None, None, map[0 := Idle], map[0 := Quiet(false)], false, None)

  lemma Extend(states: seq<State>, events: seq<Event>, e: Event, s: State)
    returns (states': seq<State>, events': seq<Event>)
    requires Run(states, events) && Step(states[|events|], e, s)
    ensures Run(states', events') && states' == states + [s] && events' == events + [e]
  {
    states', events' := states + [s], events + [e];
  }

  lemma ReaderThatWaits() returns (states: seq<State>, events: seq<Event>)
    ensures Run(states, events) && |events| == 3 && states[3] == To(FRESH, 0, Waiting)
  {
    states, events := [FRESH], [];
    states, events := Extend(states, events, Call(0), To(FRESH, 0, Sampled(0.0)));
    states, events := Extend(states, events, Peek(0), To(FRESH, 0, Peeked(0.0, None)));
    states, events := Extend(states, events, DecideFast(0), To(FRESH, 0, Waiting));
  }

  lemma RefillThatMisses() returns (states: seq<State>, events: seq<Event>)
    ensures Run(states, events) && |events| == 5 && states[5] == To(FRESH, 0, Missed(0.0)).(lock := Some(0))
  {
    states, events := ReaderThatWaits();
    states, events := Extend(states, events, Acquire(0), To(FRESH, 0, Entered).(lock := Some(0)));
    states, events := Extend(states, events, DecideLocked(0), To(FRESH, 0, Missed(0.0)).(lock := Some(0)));
  }

  /** Up to the point where the refill has found no default row. */
  lemma RefillThatInserts() returns (states: seq<State>, events: seq<Event>)
    ensures Run(states, events) && |events| == 6 && !states[5].defaultExists && events[5] == LoadDefault(0)
    ensures states[6] == To(FRESH, 0, Inserting(0.0)).(lock := Some(0))
  {
    states, events := RefillThatMisses();
    states, events := Extend(states, events, LoadDefault(0), To(FRESH, 0, Inserting(0.0)).(lock := Some(0)));
  }

  lemma RefillGetsStuck() returns (states: seq<State>, events: seq<Event>)
    ensures Run(states, events) && |events| == 7 && Stuck(states[7], 0)
  {
    states, events := RefillThatInserts();
    states, events := Extend(states, events, Insert(0), To(states[6], 0, Seeding(0.0)));
  }

  lemma RefillThatIsLate() returns (states: seq<State>, events: seq<Event>)
    ensures Run(states, events) && |events| == 7 && !states[5].defaultExists && events[5] == LoadDefault(0)
    ensures states[7] == To(FRESH, 0, Inserting(0.0)).(lock := Some(0), committed := 1, defaultExists := true)
  {
    states, events := RefillThatInserts();
    states, events := Extend(states, events, WriteElsewhere(true), states[6].(committed := 1, defaultExists := true));
  }

  lemma RefillThatLosesRace() returns (states: seq<State>, events: seq<Event>)
    ensures Run(states, events) && |events| == 9 && !states[5].defaultExists && events[5] == LoadDefault(0)
    ensures states[9] == To(FRESH, 0, ReadDefault(0.0, 1)).(lock := Some(0), committed := 1, defaultExists := true)
  {
    states, events := RefillThatIsLate();
    var s := states[7];
    states, events := Extend(states, events, Insert(0), To(s, 0, LostRace(0.0)));
    states, events := Extend(states, events, Reread(0), To(s, 0, ReadDefault(0.0, 1)));
  }

  /** A refill that found no default row returns when another process is faster. */
  lemma RefillLosesRaceAndReturns() returns (states: seq<State>, events: seq<Event>)
    ensures Run(states, events) && |events| == 11 && !states[5].defaultExists && events[5] == LoadDefault(0)
    ensures 0 in states[11].readers && states[11].readers[0].Returned? && states[11].lock == None
  {
    states, events := RefillThatLosesRace();
    var s, entry := states[9], Entry(TTL, 1, 1, 0.0);
    states, events := Extend(states, events, LoadList(0), To(s, 0, ReadList(0.0, entry)));
    states, events :=
      Extend(states, events, Store(0), To(s, 0, Returned(0.0, entry)).(cache := Some(entry), lock := None));
  }

  lemma SeederAndRefillMeet() returns (states: seq<State>, events: seq<Event>)
    ensures Run(states, events) && |events| == 7 && Deadlocked(states[7], 0, 0)
  {
    states, events := RefillThatInserts();
    states, events :=
      Extend(states, events, Flush(0, true), states[6].(writers := map[0 := Flushing], seeder := Some(0)));
  }
}
