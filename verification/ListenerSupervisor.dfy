/**
 The listener supervisor (dashboard/telegram_approval_bot.py): every pass reconciles the
 running listeners with the bot tokens that are configured right now, and starts a listener
 only for a token seen in two consecutive passes.

 A thread is represented by its number in the order of starting.
 */
module ListenerSupervisor {

  /** The threads listed for these tokens. */
  ghost function ThreadsOf(listeners: map<string, nat>, tokens: set<string>): set<nat> {
    set token | token in tokens && token in listeners :: listeners[token]
  }

  lemma ThreadsOfAdd(listeners: map<string, nat>, tokens: set<string>, token: string)
    requires token in listeners
    ensures ThreadsOf(listeners, tokens + {token}) == ThreadsOf(listeners, tokens) + {listeners[token]}
  {
  }

  /** One for a member, zero for any other token. */
  function One(tokens: set<string>, token: string): nat { if token in tokens then 1 else 0 }

  /** One more thread for every member of ``tokens``, none for any other token. */
  ghost predicate Gained(earlier: seq<string>, threads: seq<string>, tokens: set<string>) {
    forall token :: multiset(threads)[token] == multiset(earlier)[token] + One(tokens, token)
  }

  lemma GainedSnoc(earlier: seq<string>, threads: seq<string>, tokens: set<string>, token: string)
    requires Gained(earlier, threads, tokens) && token !in tokens
    ensures Gained(earlier, threads + [token], tokens + {token})
  {
  }

  class Supervisor {
    var listeners: map<string, nat>
    var previouslySeen: set<string>
    /** The token of every thread ever started, and the threads that were told to stop. */
    var threads: seq<string>
    var stopped: set<nat>

    /** Between passes: the listed threads are alive, and every other thread was told to stop. */
    ghost predicate Valid()
      reads this
    {
      && listeners.Keys <= previouslySeen
      && (forall token {:trigger token in listeners} :: token in listeners ==>
           listeners[token] < |threads| && threads[listeners[token]] == token && listeners[token] !in stopped)
      && (forall n {:trigger n in stopped} :: 0 <= n < |threads| && n !in stopped ==>
           threads[n] in listeners && listeners[threads[n]] == n)
      && (forall n :: n in stopped ==> n < |threads|)
    }

    constructor ()
      ensures Valid() && listeners == map[] && previouslySeen == {} && threads == []
    {
      listeners, previouslySeen, threads, stopped := map[], {}, [], {};
    }

    method StartListener(token: string)
      requires Valid() && token in previouslySeen && token !in listeners
      modifies this`listeners, this`threads
      ensures Valid() && listeners == old(listeners)[token := |old(threads)|] && threads == old(threads) + [token]
    {
      listeners := listeners[token := |threads|];
      threads := threads + [token];
    }

    method StopListener(token: string)
      requires Valid() && token in listeners
      modifies this`listeners, this`stopped
      ensures Valid() && listeners == old(listeners) - {token} && stopped == old(stopped) + {old(listeners)[token]}
    {
      stopped := stopped + {listeners[token]};
      listeners := listeners - {token};
    }

    /** Starts a listener for every stable token that has none. */
    method StartListeners(tokens: set<string>)
      requires Valid() && tokens <= previouslySeen
      modifies this`listeners, this`threads
      ensures Valid()
      ensures forall token :: token in listeners <==> token in old(listeners) || token in tokens
      ensures forall token :: token in old(listeners) ==> listeners[token] == old(listeners)[token]
      ensures old(threads) <= threads
      ensures Gained(old(threads), threads, tokens - old(listeners).Keys)
    {
      var missing := tokens - listeners.Keys;
      ghost var before, earlier, added := listeners, threads, {};
      while missing != {}
        invariant Valid()
        invariant forall token ::
          && (token in missing <==> token in tokens && token !in before && token !in added)
          && (token in added ==> token in tokens && token !in before)
          && (token in listeners <==> token in before || token in added)
          && (token in before ==> listeners[token] == before[token])
        invariant earlier <= threads && Gained(earlier, threads, added)
        decreases |missing|
      {
        var token :| token in missing;
        GainedSnoc(earlier, threads, added, token);
        missing, added := missing - {token}, added + {token};
        StartListener(token);
      }
      assert added == tokens - before.Keys;
    }

    /** Tells the listener of every token that is gone to stop. */
    method StopListeners(current: set<string>)
      requires Valid()
      modifies this`listeners, this`stopped
      ensures Valid()
      ensures listeners.Keys == old(listeners).Keys * current
      ensures forall token :: token in listeners ==> listeners[token] == old(listeners)[token]
      ensures stopped == old(stopped) + ThreadsOf(old(listeners), old(listeners).Keys - current)
    {
      var gone := listeners.Keys - current;
      ghost var before, stoppedBefore, told := listeners, stopped, {};
      while gone != {}
        invariant Valid()
        invariant forall token ::
          && (token in listeners <==> token in before && token !in told)
          && (token in listeners ==> listeners[token] == before[token])
          && (token in gone <==> token in listeners && token !in current)
          && (token in told ==> token in before && token !in current)
        invariant stopped == stoppedBefore + ThreadsOf(before, told)
        decreases |gone|
      {
        var token :| token in gone;
        ThreadsOfAdd(before, told, token);
        gone := gone - {token};
        told := told + {token};
        StopListener(token);
      }
      assert told == before.Keys - current;
    }

    /**
     One pass. Afterwards exactly the tokens seen in this pass and the previous one have a
     listener, and a token that kept its listener kept the same thread.
     */
    method Reconcile(current: set<string>)
      requires Valid()
      modifies this
      ensures Valid() && previouslySeen == current
      ensures listeners.Keys == current * old(previouslySeen)
      ensures forall token :: token in listeners && token in old(listeners) ==>
        listeners[token] == old(listeners)[token]
      ensures old(threads) <= threads
      ensures Gained(old(threads), threads, current * old(previouslySeen) - old(listeners).Keys)
      ensures stopped == old(stopped) + ThreadsOf(old(listeners), old(listeners).Keys - current)
    {
      var stable := current * previouslySeen;
      StartListeners(stable);
      StopListeners(current);
      previouslySeen := current;
    }

    /** After the last pass every thread ever started has been told to stop. */
    method Shutdown()
      requires Valid()
      modifies this`stopped
      ensures forall n :: 0 <= n < |threads| ==> n in stopped
    {
      stopped := stopped + listeners.Values;
      forall n | 0 <= n < |threads| ensures n in stopped {
        if n !in old(stopped) {
          assert listeners[threads[n]] in listeners.Values;
        }
      }
    }

    /** At any moment between passes, no token has two listeners that were not told to stop. */
    lemma OneListenerPerToken(a: nat, b: nat)
      requires Valid() && a < |threads| && b < |threads| && threads[a] == threads[b]
      requires a !in stopped && b !in stopped
      ensures a == b
    {
    }
  }

  // ----- Whole runs -----

  /** The listeners after the passes ``seen``, as the tokens of the last two say. */
  function Listening(seen: seq<set<string>>): set<string> {
    if |seen| < 2 then {} else seen[|seen| - 1] * seen[|seen| - 2]
  }

  /** The number of times a token gained a listener in the passes ``seen``. */
  function Starts(seen: seq<set<string>>, token: string): nat {
    if seen == [] then 0 else
      var earlier := seen[..|seen| - 1];
      Starts(earlier, token) + One(Listening(seen) - Listening(earlier), token)
  }

  /** Any number of passes: who listens after them, and how many threads every token was given. */
  method Supervise(supervisor: Supervisor, seen: seq<set<string>>)
    requires supervisor.Valid() && supervisor.listeners == map[] && supervisor.previouslySeen == {}
    requires supervisor.threads == [] && supervisor.stopped == {}
    modifies supervisor
    ensures supervisor.listeners.Keys == Listening(seen)
    ensures forall token :: multiset(supervisor.threads)[token] == Starts(seen, token)
    ensures forall n :: 0 <= n < |supervisor.threads| ==> n in supervisor.stopped
  {
    for k := 0 to |seen|
      invariant supervisor.Valid()
      invariant supervisor.listeners.Keys == Listening(seen[..k])
      invariant supervisor.previouslySeen == if k == 0 then {} else seen[k - 1]
      invariant forall token :: multiset(supervisor.threads)[token] == Starts(seen[..k], token)
    {
      supervisor.Reconcile(seen[k]);
      assert seen[..k + 1][..k] == seen[..k];
    }
    assert seen[..|seen|] == seen;
    supervisor.Shutdown();
  }

  /** A token is configured in pass ``i`` and the one before. */
  predicate StableAt(seen: seq<set<string>>, token: string, i: int) {
    1 <= i < |seen| && token in seen[i - 1] && token in seen[i]
  }

  /** A token is stable, goes away in a later pass and is stable again after that. */
  predicate LeavesAndReturns(seen: seq<set<string>>, token: string, i: int, away: int, j: int) {
    && i < away < j < |seen| && StableAt(seen, token, i) && token !in seen[away] && StableAt(seen, token, j)
  }

  lemma {:induction false} StartedIffStable(seen: seq<set<string>>, token: string)
    ensures Starts(seen, token) >= 1 <==> exists i :: StableAt(seen, token, i)
  {
    if seen != [] {
      var n := |seen| - 1;
      var earlier := seen[..n];
      StartedIffStable(earlier, token);
      assert forall i :: StableAt(earlier, token, i) ==> StableAt(seen, token, i);
      assert forall i :: StableAt(seen, token, i) && i < n ==> StableAt(earlier, token, i);
      assert token in Listening(seen) <==> StableAt(seen, token, n);
      if token in Listening(earlier) {
        assert StableAt(earlier, token, n - 1);
      }
    }
  }

  lemma ReturnIsSecondStart(seen: seq<set<string>>, token: string)
    requires seen != [] && Starts(seen[..|seen| - 1], token) == 1 && Starts(seen, token) == 2
    ensures exists i, away, j :: LeavesAndReturns(seen, token, i, away, j)
  {
    var n := |seen| - 1;
    var earlier := seen[..n];
    StartedIffStable(earlier, token);
    var i :| StableAt(earlier, token, i);
    assert LeavesAndReturns(seen, token, i, n - 2, n);
  }

  lemma {:induction false} ReturnStartsAgain(seen: seq<set<string>>, token: string, i: int, away: int, j: int)
    requires LeavesAndReturns(seen, token, i, away, j)
    ensures Starts(seen, token) >= 2
  {
    var n := |seen| - 1;
    var earlier := seen[..n];
    if j < n {
      ReturnStartsAgain(earlier, token, i, away, j);
    } else if StableAt(seen, token, n - 1) {
      ReturnStartsAgain(earlier, token, i, away, n - 1);
    } else {
      assert StableAt(earlier, token, i);
      StartedIffStable(earlier, token);
    }
  }

  /** A token is given a second thread exactly when it was stable, went away and came back. */
  lemma {:induction false} StartsAgainIff(seen: seq<set<string>>, token: string)
    ensures Starts(seen, token) >= 2 <==> exists i, away, j :: LeavesAndReturns(seen, token, i, away, j)
  {
    if i, away, j :| LeavesAndReturns(seen, token, i, away, j) {
      ReturnStartsAgain(seen, token, i, away, j);
    } else if Starts(seen, token) >= 2 {
      var earlier := seen[..|seen| - 1];
      StartsAgainIff(earlier, token);
      if i, away, j :| LeavesAndReturns(earlier, token, i, away, j) {
        assert LeavesAndReturns(seen, token, i, away, j);
      } else {
        ReturnIsSecondStart(seen, token);
      }
    }
  }
}
