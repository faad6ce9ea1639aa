/**
 The Telegram update cursor (dashboard/telegram_approval_bot.py): a persisted map of offsets,
 listeners that poll, handle and acknowledge updates, and the crashes and failed reads and
 writes in between.

 Telegram numbers updates upwards, redelivers them in order from the offset it is given, and
 forgets those below an offset it has once been given.
 */
module UpdateCursor {
  import opened Wrappers
  import ListenerSupervisor

  /** ``duplicate``: the callback matches several databases, the path that skips the cursor. */
  datatype Update = Update(id: nat, duplicate: bool)

  // ----- The cursor file -----

  datatype File = Missing | Unreadable | NotAMap | Cursors(values: map<string, int>)

  function ValidCursors(values: map<string, int>): map<string, int> {
    map token | token in values && values[token] >= 0 :: values[token]
  }

  function Load(file: File, token: string, readable: bool): Option<nat> {
    if readable && file.Cursors? && token in file.values && file.values[token] >= 0 then Some(file.values[token])
    else None
  }

  function Save(file: File, token: string, offset: nat, writable: bool): File {
    if !writable then file
    else
      match file
      case Missing => Cursors(map[token := offset])
      case Unreadable => file
      case NotAMap => Cursors(map[token := offset])
      case Cursors(values) => Cursors(ValidCursors(values)[token := offset])
  }

  /**
   Saving one token's cursor preserves every other token's, and the saved one is read back exactly when the
   write went through.
   */
  lemma SaveIsLocal(file: File, token: string, offset: nat, writable: bool, other: string)
    ensures other != token ==> Load(Save(file, token, offset, writable), other, true) == Load(file, other, true)
    ensures Load(Save(file, token, offset, writable), token, true)
         == if writable && file != Unreadable then Some(offset) else Load(file, token, true)
  {
  }

  // ----- One listener -----

  function Known(offset: Option<nat>): nat {
    if offset.Some? then offset.value else 0
  }

  /** The acknowledgement after one update was handled. */
  function Acknowledge(
      offset: Option<nat>, file: File, token: string, update: Update, writable: bool): (Option<nat>, File) {
    if update.duplicate || update.id + 1 <= Known(offset) then (offset, file)
    else (Some(update.id + 1), Save(file, token, update.id + 1, writable))
  }

  function AcknowledgeAll(offset: Option<nat>, file: File, token: string, updates: seq<Update>,
      writable: nat -> bool): (Option<nat>, File) {
    if updates == [] then (offset, file)
    else
      var n := |updates| - 1;
      var (offset', file') := AcknowledgeAll(offset, file, token, updates[..n], writable);
      Acknowledge(offset', file', token, updates[n], writable(n))
  }

  class Listener {
    const token: string
    var offset: Option<nat>
    var file: File
    var handled: seq<Update>

    constructor (token: string, file: File, readable: bool)
      ensures this.token == token && this.file == file && handled == []
      ensures offset == Load(file, token, readable)
    {
      this.token := token;
      this.file := file;
      this.offset := Load(file, token, readable);
      this.handled := [];
    }

    /** The body of the polling loop: every update of one batch, in order. */
    method HandleBatch(updates: seq<Update>, writable: nat -> bool)
      modifies this
      ensures handled == old(handled) + updates
      ensures (offset, file) == AcknowledgeAll(old(offset), old(file), token, updates, writable)
    {
      for i := 0 to |updates|
        invariant handled == old(handled) + updates[..i]
        invariant (offset, file) == AcknowledgeAll(old(offset), old(file), token, updates[..i], writable)
      {
        var update := updates[i];
        assert updates[..i + 1][..i] == updates[..i];
        handled := handled + [update];
        if update.duplicate {
          continue;
        }
        var next := update.id + 1;
        if next > Known(offset) {
          offset := Some(next);
          file := Save(file, token, next, writable(i));
        }
      }
      assert updates[..|updates|] == updates;
    }
  }

  // ----- All listeners, the server and the file -----

  /** ``next..end``: the rest of the polled batch, as positions among the token's updates. */
  datatype Live = Live(token: string, offset: Option<nat>, next: nat, end: nat, log: seq<Update>)

  datatype State = State(
    arrived: map<string, seq<Update>>, forgotten: map<string, nat>, file: File,
    live: map<nat, Live>, handled: set<(string, nat)>)

  datatype Event =
    | Arrive(token: string, update: Update)
    | Begin(listener: nat, token: string, readable: bool)
    | Poll(listener: nat, count: nat)
    | Handle(listener: nat, writable: bool)
    | Die(listener: nat, afterHandler: bool)

  function Updates(s: State, token: string): seq<Update> {
    if token in s.arrived then s.arrived[token] else []
  }

  function Forgotten(s: State, token: string): nat {
    if token in s.forgotten then s.forgotten[token] else 0
  }

  function Cursor(s: State, token: string): Option<nat> {
    Load(s.file, token, true)
  }

  /** The position of the first update numbered at least ``low``. */
  function FirstFrom(updates: seq<Update>, low: nat): (k: nat)
    ensures k <= |updates|
    ensures forall j :: 0 <= j < k ==> updates[j].id < low
    ensures k < |updates| ==> updates[k].id >= low
  {
    if updates == [] || updates[0].id >= low then 0 else 1 + FirstFrom(updates[1..], low)
  }

  ghost predicate Step(s: State, e: Event, s': State) {
    match e
    case Arrive(token, update) =>
      && (forall u :: u in Updates(s, token) ==> u.id < update.id)
      && s' == s.(arrived := s.arrived[token := Updates(s, token) + [update]])
    case Begin(l, token, readable) =>
      && l !in s.live
      && s' == s.(live := s.live[l := Live(token, Load(s.file, token, readable), 0, 0, [])])
    case Poll(l, count) =>
      l in s.live && (
        var me := s.live[l];
        var low := if Known(me.offset) > Forgotten(s, me.token) then Known(me.offset) else Forgotten(s, me.token);
        var first := FirstFrom(Updates(s, me.token), low);
        && me.next == me.end
        && first + count <= |Updates(s, me.token)|
        && s' == s.(forgotten := s.forgotten[me.token := low],
                    live := s.live[l := me.(next := first, end := first + count)]))
    case Handle(l, writable) =>
      l in s.live && s.live[l].next < s.live[l].end <= |Updates(s, s.live[l].token)| && (
        var me := s.live[l];
        var update := Updates(s, me.token)[me.next];
        var (offset, file) := Acknowledge(me.offset, s.file, me.token, update, writable);
        s' == s.(file := file, handled := s.handled + {(me.token, update.id)},
                 live := s.live[l := me.(offset := offset, next := me.next + 1, log := me.log + [update])]))
    case Die(l, afterHandler) =>
      && l in s.live
      && s' == s.(live := s.live - {l},
                  handled := if afterHandler && s.live[l].next < s.live[l].end <= |Updates(s, s.live[l].token)|
                             then s.handled + {(s.live[l].token, Updates(s, s.live[l].token)[s.live[l].next].id)}
                             else s.handled)
  }

  const INITIAL := State(map[], map[], Missing, map[], {})

  ghost predicate Run(states: seq<State>, events: seq<Event>) {
    && |states| == |events| + 1
    && states[0] == INITIAL
    && forall i :: 0 <= i < |events| ==> Step(states[i], events[i], states[i + 1])
  }

  // ----- At least once -----

  ghost predicate Ascending(updates: seq<Update>) {
    forall i, j :: 0 <= i < j < |updates| ==> updates[i].id < updates[j].id
  }

  /** Every update numbered below ``bound`` has arrived and been handled, so no later one can be numbered below it. */
  ghost predicate HandledBelow(s: State, token: string, bound: nat) {
    var updates := Updates(s, token);
    && (forall j :: 0 <= j < |updates| && updates[j].id < bound ==> (token, updates[j].id) in s.handled)
    && (bound == 0 || (updates != [] && bound <= updates[|updates| - 1].id + 1))
  }

  ghost predicate LogIsOrdered(log: seq<Update>, bound: nat) {
    && (forall i :: 0 <= i < |log| && !log[i].duplicate ==> log[i].id < bound)
    && (forall i, j :: 0 <= i < j < |log| && !log[i].duplicate ==> log[i].id < log[j].id)
  }

  ghost predicate LiveIsSound(s: State, me: Live) {
    var updates := Updates(s, me.token);
    && me.next <= me.end <= |updates|
    && HandledBelow(s, me.token, Known(me.offset))
    && (forall j :: 0 <= j < me.next ==> (me.token, updates[j].id) in s.handled)
    && (forall j :: me.next <= j < me.end ==> updates[j].id >= Known(me.offset))
    && LogIsOrdered(me.log, Known(me.offset))
  }

  ghost predicate Invariant(s: State) {
    && (forall token :: Ascending(Updates(s, token)))
    && (forall token :: HandledBelow(s, token, Forgotten(s, token)))
    && (forall token :: HandledBelow(s, token, Known(Cursor(s, token))))
    && (forall l :: l in s.live ==> LiveIsSound(s, s.live[l]))
  }

  lemma ArriveKeepsInvariant(s: State, e: Event, s': State)
    requires Invariant(s) && Step(s, e, s') && e.Arrive?
    ensures Invariant(s')
  {
    forall token ensures Ascending(Updates(s', token)) {
      ArriveKeepsAscending(s, e, s', token);
    }
    forall token ensures HandledBelow(s', token, Forgotten(s', token)) {
      assert HandledBelow(s, token, Forgotten(s, token));
      ArriveKeepsBound(s, e, s', token, Forgotten(s, token));
    }
    forall token ensures HandledBelow(s', token, Known(Cursor(s', token))) {
      assert HandledBelow(s, token, Known(Cursor(s, token)));
      ArriveKeepsBound(s, e, s', token, Known(Cursor(s, token)));
    }
    forall l | l in s'.live ensures LiveIsSound(s', s'.live[l]) {
      ArriveKeepsLive(s, e, s', s.live[l]);
    }
  }

  lemma ArriveKeepsAscending(s: State, e: Event, s': State, token: string)
    requires Step(s, e, s') && e.Arrive? && Ascending(Updates(s, token))
    ensures Ascending(Updates(s', token))
  {
  }

  lemma ArriveKeepsBound(s: State, e: Event, s': State, token: string, bound: nat)
    requires Step(s, e, s') && e.Arrive? && HandledBelow(s, token, bound)
    ensures HandledBelow(s', token, bound)
  {
    if token == e.token && Updates(s, token) != [] {
      assert Updates(s, token)[|Updates(s, token)| - 1] in Updates(s, token);
    }
  }

  lemma ArriveKeepsLive(s: State, e: Event, s': State, me: Live)
    requires Step(s, e, s') && e.Arrive? && LiveIsSound(s, me)
    ensures LiveIsSound(s', me)
  {
    ArriveKeepsBound(s, e, s', me.token, Known(me.offset));
  }

  /** Handling more of the same updates keeps bounds, listeners and order. */
  lemma MoreHandledKeeps(s: State, s': State, token: string, bound: nat)
    requires s'.arrived == s.arrived && s.handled <= s'.handled && HandledBelow(s, token, bound)
    ensures HandledBelow(s', token, bound)
  {
  }

  lemma MoreHandledKeepsLive(s: State, s': State, me: Live)
    requires s'.arrived == s.arrived && s.handled <= s'.handled && LiveIsSound(s, me)
    ensures LiveIsSound(s', me)
  {
  }

  /** All but the listener that moved, the bound it moved and the file are as before. */
  lemma CarryOver(s: State, s': State, moved: set<nat>)
    requires Invariant(s) && s'.arrived == s.arrived && s.handled <= s'.handled
    requires forall token :: s'.forgotten == s.forgotten || HandledBelow(s', token, Forgotten(s', token))
    requires forall token :: HandledBelow(s', token, Known(Cursor(s', token)))
    requires forall l :: l in s'.live ==> if l in moved
      then LiveIsSound(s', s'.live[l]) else l in s.live && s'.live[l] == s.live[l]
    ensures Invariant(s')
  {
    forall token ensures Ascending(Updates(s', token)) { assert Ascending(Updates(s, token)); }
    forall token ensures HandledBelow(s', token, Forgotten(s', token)) {
      assert HandledBelow(s, token, Forgotten(s, token));
    }
    forall l | l in s'.live ensures LiveIsSound(s', s'.live[l]) {
      if l !in moved {
        MoreHandledKeepsLive(s, s', s.live[l]);
      }
    }
  }

  lemma PollKeepsInvariant(s: State, e: Event, s': State)
    requires Invariant(s) && Step(s, e, s') && e.Poll?
    ensures Invariant(s')
  {
    PollForgetsHandled(s, e, s');
    PollKeepsCursors(s, e, s');
    PollerIsSound(s, e, s');
    PollMovesOneListener(s, e, s');
    CarryOver(s, s', {e.listener});
  }

  lemma PollMovesOneListener(s: State, e: Event, s': State)
    requires Step(s, e, s') && e.Poll?
    ensures s'.arrived == s.arrived && s'.handled == s.handled && s'.file == s.file
    ensures forall l :: l in s'.live && l != e.listener ==> l in s.live && s'.live[l] == s.live[l]
  {
  }

  lemma PollKeepsCursors(s: State, e: Event, s': State)
    requires Invariant(s) && Step(s, e, s') && e.Poll?
    ensures forall token :: HandledBelow(s', token, Known(Cursor(s', token)))
  {
    forall token ensures HandledBelow(s', token, Known(Cursor(s', token))) {
      assert HandledBelow(s, token, Known(Cursor(s, token)));
    }
  }

  lemma PollerIsSound(s: State, e: Event, s': State)
    requires Invariant(s) && Step(s, e, s') && e.Poll?
    ensures e.listener in s'.live && LiveIsSound(s', s'.live[e.listener])
  {
    var me := s.live[e.listener];
    assert LiveIsSound(s, me);
    PolledBatchIsSound(s, s', me, s'.live[e.listener]);
  }

  lemma PollForgetsHandled(s: State, e: Event, s': State)
    requires Invariant(s) && Step(s, e, s') && e.Poll?
    ensures forall t :: HandledBelow(s', t, Forgotten(s', t))
  {
    var me := s.live[e.listener];
    assert LiveIsSound(s, me);
    var low := s'.forgotten[me.token];
    assert HandledBelow(s, me.token, Forgotten(s, me.token));
    assert HandledBelow(s, me.token, low);
    MoreHandledKeeps(s, s', me.token, low);
    ForgettingIsSound(s, s', me.token, low);
  }

  lemma ForgettingIsSound(s: State, s': State, token: string, low: nat)
    requires Invariant(s) && s'.arrived == s.arrived && s'.handled == s.handled
    requires s'.forgotten == s.forgotten[token := low] && HandledBelow(s', token, low)
    ensures forall t :: HandledBelow(s', t, Forgotten(s', t))
  {
    forall t ensures HandledBelow(s', t, Forgotten(s', t)) {
      assert HandledBelow(s, t, Forgotten(s, t));
    }
  }

  lemma PolledBatchIsSound(s: State, s': State, me: Live, polled: Live)
    requires Invariant(s) && LiveIsSound(s, me)
    requires s'.arrived == s.arrived && s'.handled == s.handled
    requires polled == me.(next := polled.next, end := polled.end)
    requires polled.next <= polled.end <= |Updates(s, me.token)|
    requires polled.next == FirstFrom(Updates(s, me.token), Known(me.offset))
          || (polled.next == FirstFrom(Updates(s, me.token), Forgotten(s, me.token))
            && Forgotten(s, me.token) >= Known(me.offset))
    ensures LiveIsSound(s', polled)
  {
    var low := if polled.next == FirstFrom(Updates(s, me.token), Known(me.offset)) then Known(me.offset)
               else Forgotten(s, me.token);
    assert HandledBelow(s, me.token, Forgotten(s, me.token));
    FirstFromSplits(Updates(s, me.token), low);
  }

  lemma FirstFromSplits(updates: seq<Update>, low: nat)
    requires Ascending(updates)
    ensures forall j :: 0 <= j < |updates| ==> (updates[j].id < low <==> j < FirstFrom(updates, low))
  {
    var first := FirstFrom(updates, low);
    forall j | first <= j < |updates| ensures updates[j].id >= low {
      assert updates[j].id >= updates[first].id;
    }
  }

  /** Handling the next update makes everything up to it handled. */
  lemma NextBoundIsHandled(s: State, me: Live, s': State)
    requires Invariant(s) && LiveIsSound(s, me) && me.next < me.end
    requires s'.arrived == s.arrived
    requires s'.handled == s.handled + {(me.token, Updates(s, me.token)[me.next].id)}
    ensures HandledBelow(s', me.token, Updates(s, me.token)[me.next].id + 1)
  {
    var updates := Updates(s, me.token);
    assert Ascending(updates);
    forall j | 0 <= j < |updates| && updates[j].id < updates[me.next].id + 1
      ensures (me.token, updates[j].id) in s'.handled
    {
      assert j <= me.next;
    }
    assert me.next == |updates| - 1 || updates[me.next].id < updates[|updates| - 1].id;
  }

  lemma HandledListenerIsSound(s: State, me: Live, s': State, after: Live)
    requires Invariant(s) && LiveIsSound(s, me) && me.next < me.end
    requires s'.arrived == s.arrived
    requires s'.handled == s.handled + {(me.token, Updates(s, me.token)[me.next].id)}
    requires var update := Updates(s, me.token)[me.next];
      after == me.(next := me.next + 1, log := me.log + [update],
                   offset := if update.duplicate then me.offset else Some(update.id + 1))
    ensures LiveIsSound(s', after)
  {
    NextBoundIsHandled(s, me, s');
    MoreHandledKeeps(s, s', me.token, Known(me.offset));
    assert Ascending(Updates(s, me.token));
  }

  lemma HandleKeepsInvariant(s: State, e: Event, s': State)
    requires Invariant(s) && Step(s, e, s') && e.Handle?
    ensures Invariant(s')
  {
    HandleKeepsCursors(s, e, s');
    HandlerIsSound(s, e, s');
    HandleMovesOneListener(s, e, s');
    CarryOver(s, s', {e.listener});
  }

  lemma HandleMovesOneListener(s: State, e: Event, s': State)
    requires Step(s, e, s') && e.Handle?
    ensures s'.arrived == s.arrived && s'.forgotten == s.forgotten && s.handled <= s'.handled
    ensures forall l :: l in s'.live && l != e.listener ==> l in s.live && s'.live[l] == s.live[l]
  {
  }

  lemma HandleKeepsCursors(s: State, e: Event, s': State)
    requires Invariant(s) && Step(s, e, s') && e.Handle?
    ensures forall token :: HandledBelow(s', token, Known(Cursor(s', token)))
  {
    forall token ensures HandledBelow(s', token, Known(Cursor(s', token))) {
      HandleKeepsCursor(s, e, s', token);
    }
  }

  lemma HandleKeepsCursor(s: State, e: Event, s': State, token: string)
    requires Invariant(s) && Step(s, e, s') && e.Handle?
    ensures HandledBelow(s', token, Known(Cursor(s', token)))
  {
    var me := s.live[e.listener];
    var update := Updates(s, me.token)[me.next];
    SaveIsLocal(s.file, me.token, update.id + 1, e.writable, token);
    if Cursor(s', token) == Cursor(s, token) {
      MoreHandledKeeps(s, s', token, Known(Cursor(s, token)));
    } else {
      assert LiveIsSound(s, me);
      NextBoundIsHandled(s, me, s');
    }
  }

  lemma HandlerIsSound(s: State, e: Event, s': State)
    requires Invariant(s) && Step(s, e, s') && e.Handle?
    ensures e.listener in s'.live && LiveIsSound(s', s'.live[e.listener])
  {
    var me := s.live[e.listener];
    assert LiveIsSound(s, me);
    HandledListenerIsSound(s, me, s', s'.live[e.listener]);
  }

  lemma RestKeepsInvariant(s: State, e: Event, s': State)
    requires Invariant(s) && Step(s, e, s') && (e.Begin? || e.Die?)
    ensures Invariant(s')
  {
    forall token ensures HandledBelow(s', token, Known(Cursor(s', token))) {
      assert HandledBelow(s, token, Known(Cursor(s, token)));
      MoreHandledKeeps(s, s', token, Known(Cursor(s, token)));
    }
    if e.Begin? {
      assert HandledBelow(s', e.token, Known(Cursor(s', e.token)));
      assert HandledBelow(s', e.token, 0);
    }
    CarryOver(s, s', {e.listener});
  }

  lemma {:induction false} RunKeepsInvariant(states: seq<State>, events: seq<Event>, i: nat)
    requires Run(states, events) && i <= |events|
    ensures Invariant(states[i])
  {
    if i > 0 {
      RunKeepsInvariant(states, events, i - 1);
      var s, e, s' := states[i - 1], events[i - 1], states[i];
      match e
      case Arrive(_, _) => ArriveKeepsInvariant(s, e, s');
      case Poll(_, _) => PollKeepsInvariant(s, e, s');
      case Handle(_, _) => HandleKeepsInvariant(s, e, s');
      case _ => RestKeepsInvariant(s, e, s');
    }
  }

  /**
   Across crashes, restarts, failed reads, failed writes and even overlapping listeners, every
   update numbered below the persisted cursor of its token has been handled at least once.
   */
  lemma AcknowledgedMeansHandled(states: seq<State>, events: seq<Event>, i: nat, token: string, update: Update)
    requires Run(states, events) && i <= |events|
    requires update in Updates(states[i], token) && Cursor(states[i], token).Some?
    requires update.id < Cursor(states[i], token).value
    ensures (token, update.id) in states[i].handled
  {
    RunKeepsInvariant(states, events, i);
    assert HandledBelow(states[i], token, Known(Cursor(states[i], token)));
  }

  /** One listener handles an update twice only on the duplicate-database path. */
  lemma HandledAtMostOncePerListener(states: seq<State>, events: seq<Event>, i: nat, l: nat, a: nat, b: nat)
    requires Run(states, events) && i <= |events| && l in states[i].live
    requires a < b < |states[i].live[l].log| && states[i].live[l].log[a].id == states[i].live[l].log[b].id
    ensures states[i].live[l].log[a].duplicate
  {
    RunKeepsInvariant(states, events, i);
    assert LiveIsSound(states[i], states[i].live[l]);
  }

  // ----- The cursor -----

  /** A step lowers a cursor exactly when a listener behind it saves. */
  lemma CursorDropsIff(s: State, e: Event, s': State, token: string)
    requires Invariant(s) && Step(s, e, s')
    ensures Known(Cursor(s', token)) < Known(Cursor(s, token)) <==>
      && e.Handle? && e.writable && s.file != Unreadable && s.live[e.listener].token == token
      && var update := Updates(s, token)[s.live[e.listener].next];
         !update.duplicate && update.id + 1 < Known(Cursor(s, token))
  {
    if e.Handle? {
      var me := s.live[e.listener];
      assert LiveIsSound(s, me);
      var update := Updates(s, me.token)[me.next];
      SaveIsLocal(s.file, me.token, update.id + 1, e.writable, token);
    }
  }

  /** No listener is behind the cursor of its token. */
  ghost predicate NoneBehind(s: State) {
    forall l :: l in s.live ==> Known(Cursor(s, s.live[l].token)) <= Known(s.live[l].offset)
  }

  ghost predicate OnePerToken(s: State) {
    forall a, b :: a in s.live && b in s.live && s.live[a].token == s.live[b].token ==> a == b
  }

  /** A listener begins with a successful read of the cursor file. */
  ghost predicate ReadsFile(e: Event) { e.Begin? ==> e.readable }

  /** A listener begins without a predecessor still at work. */
  ghost predicate StartsAlone(s: State, e: Event) {
    e.Begin? ==> forall l :: l in s.live ==> s.live[l].token != e.token
  }

  ghost predicate CleanStart(s: State, e: Event) { ReadsFile(e) && StartsAlone(s, e) }

  ghost predicate CleanRun(states: seq<State>, events: seq<Event>) {
    Run(states, events) && forall i :: 0 <= i < |events| ==> CleanStart(states[i], events[i])
  }

  /** Handling moves one listener forward and its cursor at most as far. */
  ghost predicate Advances(s: State, l: nat, s': State) {
    && l in s.live && s'.live.Keys == s.live.Keys
    && (forall k :: k in s.live && k != l ==> s'.live[k] == s.live[k])
    && s'.live[l].token == s.live[l].token && Known(s.live[l].offset) <= Known(s'.live[l].offset)
    && (forall token :: token != s.live[l].token ==> Cursor(s', token) == Cursor(s, token))
    && (Cursor(s', s.live[l].token) == Cursor(s, s.live[l].token) || Cursor(s', s.live[l].token) == s'.live[l].offset)
  }

  lemma HandleAdvances(s: State, e: Event, s': State)
    requires Invariant(s) && Step(s, e, s') && e.Handle?
    ensures Advances(s, e.listener, s')
  {
    var me := s.live[e.listener];
    assert LiveIsSound(s, me);
    var update := Updates(s, me.token)[me.next];
    forall token ensures token != me.token ==> Cursor(s', token) == Cursor(s, token) {
      SaveIsLocal(s.file, me.token, update.id + 1, e.writable, token);
    }
    SaveIsLocal(s.file, me.token, update.id + 1, e.writable, me.token);
    assert Known(me.offset) <= Known(s'.live[e.listener].offset);
  }

  lemma AdvanceKeepsPace(s: State, l: nat, s': State)
    requires Advances(s, l, s') && NoneBehind(s) && OnePerToken(s)
    ensures NoneBehind(s') && OnePerToken(s')
  {
    forall k | k in s'.live ensures Known(Cursor(s', s'.live[k].token)) <= Known(s'.live[k].offset) {
      assert k == l || s.live[k].token != s.live[l].token;
    }
  }

  lemma CleanStepKeepsPace(s: State, e: Event, s': State)
    requires Invariant(s) && Step(s, e, s') && CleanStart(s, e) && NoneBehind(s) && OnePerToken(s)
    ensures NoneBehind(s') && OnePerToken(s')
  {
    match e
    case Handle(l, _) =>
      HandleAdvances(s, e, s');
      AdvanceKeepsPace(s, l, s');
    case Begin(_, _, _) => BeginKeepsPace(s, e, s');
    case _ => OtherStepKeepsPace(s, e, s');
  }

  lemma OtherStepKeepsPace(s: State, e: Event, s': State)
    requires Step(s, e, s') && !e.Handle? && !e.Begin? && NoneBehind(s) && OnePerToken(s)
    ensures NoneBehind(s') && OnePerToken(s')
  {
    assert s'.file == s.file;
    forall k | k in s'.live
      ensures k in s.live && s'.live[k].token == s.live[k].token && s'.live[k].offset == s.live[k].offset {}
  }

  lemma BeginKeepsPace(s: State, e: Event, s': State)
    requires Step(s, e, s') && e.Begin? && CleanStart(s, e) && NoneBehind(s) && OnePerToken(s)
    ensures NoneBehind(s') && OnePerToken(s')
  {
  }

  lemma {:induction false} CleanRunKeepsPace(states: seq<State>, events: seq<Event>, i: nat)
    requires CleanRun(states, events) && i <= |events|
    ensures NoneBehind(states[i]) && OnePerToken(states[i])
  {
    if i > 0 {
      CleanRunKeepsPace(states, events, i - 1);
      RunKeepsInvariant(states, events, i - 1);
      CleanStepKeepsPace(states[i - 1], events[i - 1], states[i]);
    }
  }

  /** While every listener starts cleanly, no cursor ever decreases, whatever crashes and however many writes fail. */
  lemma {:induction false} CursorNeverDecreases(states: seq<State>, events: seq<Event>, i: nat, k: nat, token: string)
    requires CleanRun(states, events) && i <= k <= |events|
    ensures Known(Cursor(states[i], token)) <= Known(Cursor(states[k], token))
    decreases k
  {
    if i < k {
      CursorNeverDecreases(states, events, i, k - 1, token);
      StepOfCleanRunKeepsCursor(states, events, k - 1, token);
    }
  }

  lemma StepOfCleanRunKeepsCursor(states: seq<State>, events: seq<Event>, i: nat, token: string)
    requires CleanRun(states, events) && i < |events|
    ensures Known(Cursor(states[i], token)) <= Known(Cursor(states[i + 1], token))
  {
    CleanRunKeepsPace(states, events, i);
    RunKeepsInvariant(states, events, i);
    PacedStepKeepsCursor(states[i], events[i], states[i + 1], token);
  }

  lemma PacedStepKeepsCursor(s: State, e: Event, s': State, token: string)
    requires Invariant(s) && Step(s, e, s') && NoneBehind(s)
    ensures Known(Cursor(s, token)) <= Known(Cursor(s', token))
  {
    CursorDropsIff(s, e, s', token);
    if e.Handle? {
      assert LiveIsSound(s, s.live[e.listener]);
    }
  }

  // ----- Neither half of a clean start can be dropped -----

  const U5: Update := Update(5, false)
  const U6: Update := Update(6, false)

  /** Two updates waiting for one token, a first listener with both of them in hand. */
  lemma PollBoth(token: string) returns (states: seq<State>, events: seq<Event>)
    ensures Run(states, events) && |events| == 4 && AllReadsAndWritesSucceed(events) && NeverOverlaps(states, events)
    ensures states[4]
      == State(map[token := [U5, U6]], map[token := 0], Missing, map[0 := Live(token, None, 0, 2, [])], {})
  {
    var s3: State;
    states, events, s3 := BeginWithBoth(token);
    var s4 := s3.(forgotten := map[token := 0], live := map[0 := Live(token, None, 0, 2, [])]);
    assert Step(s3, Poll(0, 2), s4);
    states, events := Extend(states, events, Poll(0, 2), s4);
  }

  lemma BeginWithBoth(token: string) returns (states: seq<State>, events: seq<Event>, s: State)
    ensures Run(states, events) && |events| == 3 && AllReadsAndWritesSucceed(events) && NeverOverlaps(states, events)
    ensures states[3] == s == State(map[token := [U5, U6]], map[], Missing, map[0 := Live(token, None, 0, 0, [])], {})
  {
    var s1 := INITIAL.(arrived := map[token := [U5]]);
    var s2 := INITIAL.(arrived := map[token := [U5, U6]]);
    s := s2.(live := map[0 := Live(token, None, 0, 0, [])]);
    assert [U5] + [U6] == [U5, U6] && [] + [U5] == [U5];
    states := [INITIAL, s1, s2, s];
    events := [Arrive(token, U5), Arrive(token, U6), Begin(0, token, true)];
  }

  lemma Extend(states: seq<State>, events: seq<Event>, e: Event, s: State)
    returns (states': seq<State>, events': seq<Event>)
    requires Run(states, events) && Step(states[|events|], e, s)
    ensures Run(states', events') && states' == states + [s] && events' == events + [e]
  {
    states', events' := states + [s], events + [e];
  }

  ghost predicate WritesFile(e: Event) { e.Handle? ==> e.writable }

  ghost predicate AllReadsAndWritesSucceed(events: seq<Event>) {
    forall i :: 0 <= i < |events| ==> ReadsFile(events[i]) && WritesFile(events[i])
  }

  /** Every listener begins alone, and all writes succeed; only reads at a start may fail. */
  ghost predicate NeverOverlaps(states: seq<State>, events: seq<Event>) {
    |states| > |events| && forall i :: 0 <= i < |events| ==> StartsAlone(states[i], events[i]) && WritesFile(events[i])
  }

  lemma PollBothTwice(token: string) returns (states: seq<State>, events: seq<Event>)
    ensures Run(states, events) && |events| == 6 && AllReadsAndWritesSucceed(events)
    ensures states[6] == State(map[token := [U5, U6]], map[token := 0], Missing,
                               map[0 := Live(token, None, 0, 2, []), 1 := Live(token, None, 0, 2, [])], {})
  {
    states, events := PollBoth(token);
    var s4 := states[4];
    var zero := Live(token, None, 0, 2, []);
    var s5 := s4.(live := map[0 := zero, 1 := Live(token, None, 0, 0, [])]);
    states, events := Extend(states, events, Begin(1, token, true), s5);
    var s6 := s5.(live := map[0 := zero, 1 := Live(token, None, 0, 2, [])]);
    assert Step(s5, Poll(1, 2), s6);
    states, events := Extend(states, events, Poll(1, 2), s6);
  }

  lemma OvertakingStep(token: string, s: State) returns (s': State)
    requires s == State(map[token := [U5, U6]], map[token := 0], Missing,
                        map[0 := Live(token, None, 0, 2, []), 1 := Live(token, None, 0, 2, [])], {})
    ensures Step(s, Handle(1, true), s')
    ensures s' == s.(file := Cursors(map[token := 6]), handled := {(token, 5)},
                     live := s.live[1 := Live(token, Some(6), 1, 2, [U5])])
  {
    s' := s.(file := Cursors(map[token := 6]), handled := {(token, 5)},
             live := s.live[1 := Live(token, Some(6), 1, 2, [U5])]);
    assert Acknowledge(None, Missing, token, U5, true) == (Some(6), s'.file);
    assert [] + [U5] == [U5];
  }

  /** A second listener overtakes the first one; the first then saves its older cursor. */
  lemma OverlappingListenersLowerCursor(token: string) returns (states: seq<State>, events: seq<Event>)
    ensures Run(states, events) && |events| == 9 && AllReadsAndWritesSucceed(events)
    ensures Cursor(states[8], token) == Some(7) && Cursor(states[9], token) == Some(6)
  {
    states, events := PollBothTwice(token);
    var s7 := OvertakingStep(token, states[6]);
    states, events := Extend(states, events, Handle(1, true), s7);
    var s8 := s7.(file := Cursors(map[token := 7]), handled := {(token, 5), (token, 6)},
                  live := s7.live[1 := Live(token, Some(7), 2, 2, [U5, U6])]);
    assert ValidCursors(map[token := 6])[token := 7] == map[token := 7];
    assert [U5] + [U6] == [U5, U6];
    assert Step(s7, Handle(1, true), s8);
    states, events := Extend(states, events, Handle(1, true), s8);
    var s9 := s8.(file := Cursors(map[token := 6]), live := s8.live[0 := Live(token, Some(6), 1, 2, [U5])]);
    assert ValidCursors(map[token := 7])[token := 6] == map[token := 6];
    assert s8.handled + {(token, 5)} == s8.handled;
    assert [] + [U5] == [U5];
    assert Step(s8, Handle(0, true), s9);
    states, events := Extend(states, events, Handle(0, true), s9);
  }

  lemma HandleBoth(token: string) returns (states: seq<State>, events: seq<Event>)
    ensures Run(states, events) && |events| == 6 && NeverOverlaps(states, events)
    ensures states[6] == State(map[token := [U5, U6]], map[token := 0], Cursors(map[token := 7]),
                               map[0 := Live(token, Some(7), 2, 2, [U5, U6])], {(token, 5), (token, 6)})
  {
    states, events := PollBoth(token);
    var s5 := states[4].(file := Cursors(map[token := 6]), handled := {(token, 5)},
                         live := map[0 := Live(token, Some(6), 1, 2, [U5])]);
    assert [] + [U5] == [U5];
    assert Step(states[4], Handle(0, true), s5);
    states, events := Extend(states, events, Handle(0, true), s5);
    var s6 := s5.(file := Cursors(map[token := 7]), handled := {(token, 5), (token, 6)},
                  live := map[0 := Live(token, Some(7), 2, 2, [U5, U6])]);
    assert ValidCursors(map[token := 6])[token := 7] == map[token := 7];
    assert [U5] + [U6] == [U5, U6];
    assert Step(s5, Handle(0, true), s6);
    states, events := Extend(states, events, Handle(0, true), s6);
  }

  /**
   The listener dies, and the next one cannot read the file: it is given both updates again and saves the older
   cursor.
   */
  lemma FailedReadLowersCursor(token: string) returns (states: seq<State>, events: seq<Event>)
    ensures Run(states, events) && |events| == 10 && NeverOverlaps(states, events)
    ensures Cursor(states[9], token) == Some(7) && Cursor(states[10], token) == Some(6)
  {
    states, events := HandleBoth(token);
    var s7 := states[6].(live := map[]);
    states, events := ExtendAlone(states, events, Die(0, false), s7);
    var s8 := s7.(live := map[1 := Live(token, None, 0, 0, [])]);
    states, events := ExtendAlone(states, events, Begin(1, token, false), s8);
    var s9 := s8.(live := map[1 := Live(token, None, 0, 2, [])]);
    assert Step(s8, Poll(1, 2), s9);
    states, events := ExtendAlone(states, events, Poll(1, 2), s9);
    var s10 := s9.(file := Cursors(map[token := 6]), live := map[1 := Live(token, Some(6), 1, 2, [U5])]);
    assert ValidCursors(map[token := 7])[token := 6] == map[token := 6];
    assert s9.handled + {(token, 5)} == s9.handled;
    assert [] + [U5] == [U5];
    assert Step(s9, Handle(1, true), s10);
    states, events := ExtendAlone(states, events, Handle(1, true), s10);
  }

  lemma ExtendAlone(states: seq<State>, events: seq<Event>, e: Event, s: State)
    returns (states': seq<State>, events': seq<Event>)
    requires Run(states, events) && NeverOverlaps(states, events)
    requires Step(states[|events|], e, s) && StartsAlone(states[|events|], e) && WritesFile(e)
    ensures Run(states', events') && NeverOverlaps(states', events')
    ensures states' == states + [s] && events' == events + [e]
  {
    states', events' := Extend(states, events, e, s);
  }

  // ----- What a listener and the file show -----

  /** A reachable state in which a listener that knows ``known`` lowers the cursor ``cursor`` of its token. */
  ghost predicate CanLower(states: seq<State>, events: seq<Event>, l: nat, after: State, token: string, known: nat,
      cursor: nat) {
    Run(states, events) && (
      var s := states[|events|];
      && l in s.live && s.live[l].token == token && Known(s.live[l].offset) == known && Cursor(s, token) == Some(cursor)
      && Step(s, Handle(l, true), after) && Known(Cursor(after, token)) < cursor)
  }

  /** A listener that has not fallen more than one behind the file never lowers its cursor. */
  lemma OneBehindIsSafe(s: State, e: Event, s': State)
    requires Invariant(s) && Step(s, e, s') && e.Handle?
    requires Known(Cursor(s, s.live[e.listener].token)) <= Known(s.live[e.listener].offset) + 1
    ensures Known(Cursor(s, s.live[e.listener].token)) <= Known(Cursor(s', s.live[e.listener].token))
  {
    CursorDropsIff(s, e, s', s.live[e.listener].token);
    assert LiveIsSound(s, s.live[e.listener]);
  }

  /**
   The condition on what can be seen before the save: a listener that knows ``known`` may lower the
   cursor in the file if and only if the file is more than one ahead of it.
   */
  lemma CursorIsAtRiskIff(token: string, known: nat, cursor: nat)
    ensures (exists states, events, l, after :: CanLower(states, events, l, after, token, known, cursor))
      <==> cursor > known + 1
  {
    if cursor > known + 1 {
      var states, events, after := SecondListenerFallsBehind(token, known, cursor);
      assert CanLower(states, events, 1, after, token, known, cursor);
    }
    forall states, events, l, after | CanLower(states, events, l, after, token, known, cursor)
      ensures cursor > known + 1
    {
      RunKeepsInvariant(states, events, |events|);
      if cursor <= known + 1 {
        OneBehindIsSafe(states[|events|], Handle(l, true), after);
      }
    }
  }

  /** One listener that has acknowledged everything below ``known``. */
  function UpToDate(token: string, known: nat): State {
    if known == 0 then State(map[], map[], Missing, map[0 := Live(token, None, 0, 0, [])], {})
    else
      var update := Update(known - 1, false);
      State(map[token := [update]], map[token := 0], Cursors(map[token := known]),
            map[0 := Live(token, Some(known), 1, 1, [update])], {(token, known - 1)})
  }

  lemma UpToDateIsReachable(token: string, known: nat) returns (states: seq<State>, events: seq<Event>)
    ensures Run(states, events) && states[|events|] == UpToDate(token, known)
  {
    if known == 0 {
      states, events := Extend([INITIAL], [], Begin(0, token, true), UpToDate(token, 0));
    } else {
      states, events := OneUpdatePolled(token, Update(known - 1, false));
      assert [] + [Update(known - 1, false)] == [Update(known - 1, false)];
      assert Step(states[|events|], Handle(0, true), UpToDate(token, known));
      states, events := Extend(states, events, Handle(0, true), UpToDate(token, known));
    }
  }

  lemma OneUpdatePolled(token: string, update: Update) returns (states: seq<State>, events: seq<Event>)
    ensures Run(states, events)
    ensures states[|events|]
      == State(map[token := [update]], map[token := 0], Missing, map[0 := Live(token, None, 0, 1, [])], {})
  {
    var s1 := INITIAL.(arrived := map[token := [update]]);
    assert [] + [update] == [update];
    states, events := Extend([INITIAL], [], Arrive(token, update), s1);
    var s2 := s1.(live := map[0 := Live(token, None, 0, 0, [])]);
    states, events := Extend(states, events, Begin(0, token, true), s2);
    var s3 := s2.(forgotten := map[token := 0], live := map[0 := Live(token, None, 0, 1, [])]);
    assert Step(s2, Poll(0, 1), s3);
    states, events := Extend(states, events, Poll(0, 1), s3);
  }

  /** Two more updates arrive, and a second listener has begun; both have polled. */
  function BothPolled(token: string, known: nat, cursor: nat): State
    requires cursor > known + 1
  {
    var s := UpToDate(token, known);
    var n, me := |Updates(s, token)|, s.live[0];
    s.(arrived := map[token := Updates(s, token) + [Update(known, false), Update(cursor - 1, false)]],
       forgotten := map[token := known],
       live := map[0 := me.(next := n, end := n + 2), 1 := Live(token, me.offset, n, n + 2, [])])
  }

  lemma {:induction false} FirstNewUpdate(token: string, known: nat, cursor: nat)
    requires cursor > known + 1
    ensures FirstFrom(Updates(BothPolled(token, known, cursor), token), known)
      == |Updates(UpToDate(token, known), token)|
  {
  }

  lemma BothPoll(token: string, known: nat, cursor: nat) returns (states: seq<State>, events: seq<Event>)
    requires cursor > known + 1
    ensures Run(states, events) && states[|events|] == BothPolled(token, known, cursor)
  {
    states, events := TwoArrive(token, known, cursor);
    var s3 := TwoPolls(token, known, cursor, states[|events|]);
    states, events := Extend(states, events, Poll(0, 2), s3);
    states, events := Extend(states, events, Poll(1, 2), BothPolled(token, known, cursor));
  }

  lemma TwoPolls(token: string, known: nat, cursor: nat, s: State) returns (s': State)
    requires cursor > known + 1
    requires var s0 := UpToDate(token, known);
      s == s0.(arrived := BothPolled(token, known, cursor).arrived,
               live := s0.live[1 := Live(token, s0.live[0].offset, 0, 0, [])])
    ensures Step(s, Poll(0, 2), s') && Step(s', Poll(1, 2), BothPolled(token, known, cursor))
  {
    var s4 := BothPolled(token, known, cursor);
    FirstNewUpdate(token, known, cursor);
    s' := s.(forgotten := s4.forgotten, live := s.live[0 := s4.live[0]]);
  }

  lemma TwoArrive(token: string, known: nat, cursor: nat) returns (states: seq<State>, events: seq<Event>)
    requires cursor > known + 1
    ensures Run(states, events)
    ensures var s := UpToDate(token, known);
      states[|events|] == s.(arrived := BothPolled(token, known, cursor).arrived,
                             live := s.live[1 := Live(token, s.live[0].offset, 0, 0, [])])
  {
    states, events := UpToDateIsReachable(token, known);
    var s := UpToDate(token, known);
    var s1 := s.(live := s.live[1 := Live(token, s.live[0].offset, 0, 0, [])]);
    states, events := Extend(states, events, Begin(1, token, true), s1);
    var first, second := Update(known, false), Update(cursor - 1, false);
    var s2 := s1.(arrived := map[token := Updates(s, token) + [first]]);
    states, events := Extend(states, events, Arrive(token, first), s2);
    assert Updates(s2, token) + [second] == Updates(s, token) + [first, second];
    states, events :=
      Extend(states, events, Arrive(token, second), s2.(arrived := BothPolled(token, known, cursor).arrived));
  }

  /** What the first listener leaves when it has handled both updates. */
  function OneHandled(token: string, known: nat, cursor: nat): State
    requires cursor > known + 1
  {
    var s := BothPolled(token, known, cursor);
    var me, first, second := s.live[0], Update(known, false), Update(cursor - 1, false);
    s.(file := Cursors(map[token := cursor]), handled := s.handled + {(token, known), (token, cursor - 1)},
       live := s.live[0 := me.(offset := Some(cursor), next := me.end, log := me.log + [first, second])])
  }

  /** What it leaves after the first of them. */
  function FirstHandled(token: string, known: nat, cursor: nat): State
    requires cursor > known + 1
  {
    var s := BothPolled(token, known, cursor);
    var me, first := s.live[0], Update(known, false);
    s.(file := Cursors(map[token := known + 1]), handled := s.handled + {(token, known)},
       live := s.live[0 := me.(offset := Some(known + 1), next := me.next + 1, log := me.log + [first])])
  }

  lemma HandlesFirst(token: string, known: nat, cursor: nat)
    requires cursor > known + 1
    ensures Step(BothPolled(token, known, cursor), Handle(0, true), FirstHandled(token, known, cursor))
  {
    assert ValidCursors(map[token := known])[token := known + 1] == map[token := known + 1];
  }

  lemma HandlesSecond(token: string, known: nat, cursor: nat)
    requires cursor > known + 1
    ensures Step(FirstHandled(token, known, cursor), Handle(0, true), OneHandled(token, known, cursor))
  {
    var s, s1, s2 :=
      BothPolled(token, known, cursor), FirstHandled(token, known, cursor), OneHandled(token, known, cursor);
    var me, first, second := s.live[0], Update(known, false), Update(cursor - 1, false);
    assert ValidCursors(map[token := known + 1])[token := cursor] == map[token := cursor];
    assert (me.log + [first]) + [second] == me.log + [first, second];
    assert s1.handled + {(token, cursor - 1)} == s2.handled;
  }

  lemma FirstHandlesBoth(token: string, known: nat, cursor: nat) returns (states: seq<State>, events: seq<Event>)
    requires cursor > known + 1
    ensures Run(states, events) && states[|events|] == OneHandled(token, known, cursor)
  {
    states, events := BothPoll(token, known, cursor);
    HandlesFirst(token, known, cursor);
    states, events := Extend(states, events, Handle(0, true), FirstHandled(token, known, cursor));
    HandlesSecond(token, known, cursor);
    states, events := Extend(states, events, Handle(0, true), OneHandled(token, known, cursor));
  }

  lemma SecondListenerFallsBehind(token: string, known: nat, cursor: nat)
    returns (states: seq<State>, events: seq<Event>, after: State)
    requires cursor > known + 1
    ensures CanLower(states, events, 1, after, token, known, cursor)
  {
    states, events := FirstHandlesBoth(token, known, cursor);
    var s := OneHandled(token, known, cursor);
    var me, first := s.live[1], Update(known, false);
    after := s.(file := Cursors(map[token := known + 1]),
                live := s.live[1 := me.(offset := Some(known + 1), next := me.next + 1, log := [first])]);
    assert ValidCursors(map[token := cursor])[token := known + 1] == map[token := known + 1];
    assert s.handled + {(token, known)} == s.handled;
    assert [] + [first] == [first];
    assert Step(s, Handle(1, true), after);
  }

  // ----- What the server and a crash can do -----

  /** A poll returns updates from the first one on that neither the offset nor the server's memory excludes. */
  lemma PollReturns(s: State, l: nat, count: nat) returns (s': State, first: nat)
    requires l in s.live && s.live[l].next == s.live[l].end
    ensures first <= |Updates(s, s.live[l].token)|
    ensures forall j :: 0 <= j < |Updates(s, s.live[l].token)| && j < first ==>
      Updates(s, s.live[l].token)[j].id < Forgotten(s, s.live[l].token)
      || Updates(s, s.live[l].token)[j].id < Known(s.live[l].offset)
    ensures first < |Updates(s, s.live[l].token)| ==>
      && Updates(s, s.live[l].token)[first].id >= Forgotten(s, s.live[l].token)
      && Updates(s, s.live[l].token)[first].id >= Known(s.live[l].offset)
    ensures first + count <= |Updates(s, s.live[l].token)| ==>
      Step(s, Poll(l, count), s') && s'.live[l] == s.live[l].(next := first, end := first + count)
  {
    var me := s.live[l];
    var low := if Known(me.offset) > Forgotten(s, me.token) then Known(me.offset) else Forgotten(s, me.token);
    first := FirstFrom(Updates(s, me.token), low);
    s' := s.(forgotten := s.forgotten[me.token := low], live := s.live[l := me.(next := first, end := first + count)]);
  }

  /** A listener can die at any time; the update in its hands counts as handled only if its handler was done. */
  lemma DeathIsAlwaysPossible(s: State, l: nat) returns (before: State, after: State)
    requires l in s.live && s.live[l].next < s.live[l].end <= |Updates(s, s.live[l].token)|
    ensures Step(s, Die(l, false), before) && before == s.(live := s.live - {l})
    ensures Step(s, Die(l, true), after) && after == before.(
      handled := s.handled + {(s.live[l].token, Updates(s, s.live[l].token)[s.live[l].next].id)})
  {
    var me := s.live[l];
    before := s.(live := s.live - {l});
    after := before.(handled := s.handled + {(me.token, Updates(s, me.token)[me.next].id)});
  }

  // ----- Which passes of the supervisor let listeners overlap -----

  /** The listeners begun for a token by the events from ``first`` up to ``i``. */
  function Begins(events: seq<Event>, first: nat, i: nat, token: string): nat
    requires first <= i <= |events|
    decreases i
  {
    if i == first then 0 else
      Begins(events, first, i - 1, token)
        + if events[i - 1].Begin? && events[i - 1].token == token then 1 else 0
  }

  /**
   A process begins at ``first``, when nobody listens. Its supervisor makes the passes ``seen``, and
   the events from ``first`` through ``i`` begin at most the listeners that these passes start.
   */
  ghost predicate Supervised(states: seq<State>, events: seq<Event>, first: nat, i: nat, seen: seq<set<string>>) {
    && Run(states, events) && first <= i < |events| && states[first].live == map[]
    && forall token :: Begins(events, first, i + 1, token) <= ListenerSupervisor.Starts(seen, token)
  }

  /** Event ``i`` begins a listener for ``token`` while an earlier one of the same token is at work. */
  ghost predicate Overlaps(states: seq<State>, events: seq<Event>, i: nat, token: string) {
    && i < |events| < |states| && events[i].Begin? && events[i].token == token
    && !StartsAlone(states[i], events[i])
  }

  ghost predicate Returns(seen: seq<set<string>>, token: string) {
    exists i, away, j :: ListenerSupervisor.LeavesAndReturns(seen, token, i, away, j)
  }

  /** Whoever is at work was begun by this process. */
  lemma {:induction false} AliveWasBegun(states: seq<State>, events: seq<Event>, first: nat, i: nat, l: nat)
    requires Run(states, events) && first <= i <= |events| && states[first].live == map[] && l in states[i].live
    ensures Begins(events, first, i, states[i].live[l].token) >= 1
    decreases i
  {
    var s, e := states[i - 1], events[i - 1];
    assert Step(s, e, states[i]);
    if l in s.live {
      AliveWasBegun(states, events, first, i - 1, l);
      assert s.live[l].token == states[i].live[l].token;
    }
  }

  lemma OverlapNeedsReturn(
      states: seq<State>, events: seq<Event>, first: nat, i: nat, seen: seq<set<string>>, token: string)
    requires Supervised(states, events, first, i, seen) && Overlaps(states, events, i, token)
    ensures Returns(seen, token)
  {
    var l :| l in states[i].live && states[i].live[l].token == token;
    AliveWasBegun(states, events, first, i, l);
    ListenerSupervisor.StartsAgainIff(seen, token);
  }

  /**
   The passes of a supervisor let two listeners of a token overlap if and only if the token was stable,
   was missing in a later pass and was stable again after that.
   */
  lemma ListenersOverlapIff(seen: seq<set<string>>, token: string)
    ensures
      (exists states, events, first: nat, i: nat ::
         Supervised(states, events, first, i, seen) && Overlaps(states, events, i, token))
      <==> Returns(seen, token)
  {
    forall states, events, first: nat, i: nat
      | Supervised(states, events, first, i, seen) && Overlaps(states, events, i, token)
      ensures Returns(seen, token)
    {
      OverlapNeedsReturn(states, events, first, i, seen, token);
    }
    if Returns(seen, token) {
      var states, events := SecondBegins(seen, token);
      assert Supervised(states, events, 0, 1, seen) && Overlaps(states, events, 1, token);
    }
  }

  /** The first listener is still in its long poll when the second begins. */
  lemma SecondBegins(seen: seq<set<string>>, token: string) returns (states: seq<State>, events: seq<Event>)
    requires Returns(seen, token)
    ensures Supervised(states, events, 0, 1, seen) && Overlaps(states, events, 1, token)
  {
    var begun := Live(token, None, 0, 0, []);
    var s1 := INITIAL.(live := map[0 := begun]);
    var s2 := INITIAL.(live := map[0 := begun, 1 := begun]);
    states, events := [INITIAL, s1, s2], [Begin(0, token, true), Begin(1, token, true)];
    ListenerSupervisor.StartsAgainIff(seen, token);
    assert Begins(events, 0, 0, token) == 0;
    forall other ensures Begins(events, 0, 2, other) == if other == token then 2 else 0 {
      assert Begins(events, 0, 1, other) == if other == token then 1 else 0;
    }
  }

  /** Event ``i`` begins a listener in a process whose passes never saw its token leave and return. */
  ghost predicate BeginsSteadily(states: seq<State>, events: seq<Event>, i: nat) {
    i < |events| && (events[i].Begin? ==> exists first: nat, seen ::
      Supervised(states, events, first, i, seen) && !Returns(seen, events[i].token))
  }

  /**
   The cursor never decreases over any number of processes, crashes and lost writes, as long as every
   listener reads the file when it begins and no supervisor saw a token leave and return.
   */
  lemma SteadyTokensKeepCursor(states: seq<State>, events: seq<Event>, i: nat, k: nat, token: string)
    requires Run(states, events) && i <= k <= |events|
    requires forall n :: 0 <= n < |events| ==> ReadsFile(events[n]) && BeginsSteadily(states, events, n)
    ensures Known(Cursor(states[i], token)) <= Known(Cursor(states[k], token))
  {
    forall n | 0 <= n < |events| ensures CleanStart(states[n], events[n]) {
      assert ReadsFile(events[n]) && BeginsSteadily(states, events, n);
      if !StartsAlone(states[n], events[n]) {
        var first: nat, seen :| Supervised(states, events, first, n, seen)
          && !Returns(seen, events[n].token);
        OverlapNeedsReturn(states, events, first, n, seen, events[n].token);
      }
    }
    CursorNeverDecreases(states, events, i, k, token);
  }
}
