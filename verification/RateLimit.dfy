// The sliding-window limiter of internal/auth/ratelimit.go: it forgets attempts
// that left the window and sweeps idle keys, and neither can be noticed.
module RateLimit {
  /** attempts and lastSweep. */
  datatype State = State(attempts: map<string, seq<int>>, lastSweep: int)

  datatype Config = Config(limit: int, window: nat)

  /** The times after a cutoff. */
  function After(times: seq<int>, cutoff: int): (r: seq<int>)
    ensures |r| <= |times|
  {
    if times == [] then []
    else
      var last := times[|times| - 1];
      After(times[..|times| - 1], cutoff) + if last > cutoff then [last] else []
  }

  lemma {:induction false} AfterHolds(times: seq<int>, cutoff: int)
    ensures forall t :: t in After(times, cutoff) <==> t in times && t > cutoff
  {
    if times != [] {
      AfterHolds(times[..|times| - 1], cutoff);
      assert forall t :: t in times <==> t in times[..|times| - 1] || t == times[|times| - 1];
    }
  }

  function Times(attempts: map<string, seq<int>>, key: string): seq<int> {
    if key in attempts then attempts[key] else []
  }

  /** No attempt is left in the window, going by the last one. */
  predicate Idle(times: seq<int>, cutoff: int) {
    times == [] || times[|times| - 1] <= cutoff
  }

  function Swept(c: Config, s: State, now: int): State {
    if now - s.lastSweep >= c.window then
      State(map k | k in s.attempts && !Idle(s.attempts[k], now - c.window) :: s.attempts[k], now)
    else s
  }

  /** Allow: the next state and the answer. */
  function Ask(c: Config, s: State, key: string, now: int): (State, bool) {
    var swept := Swept(c, s, now);
    var recent := After(Times(swept.attempts, key), now - c.window);
    if |recent| >= c.limit then (swept.(attempts := swept.attempts[key := recent]), false)
    else (swept.(attempts := swept.attempts[key := recent + [now]]), true)
  }

  class RateLimiter {
    const config: Config
    var attempts: map<string, seq<int>>
    var lastSweep: int

    constructor (config: Config)
      ensures this.config == config && Current() == State(map[], 0)
    {
      this.config := config;
      attempts, lastSweep := map[], 0;
    }

    ghost function Current(): State
      reads this
    {
      State(attempts, lastSweep)
    }

    method Allow(key: string, now: int) returns (ok: bool)
      modifies this
      ensures (Current(), ok) == Ask(config, old(Current()), key, now)
    {
      var cutoff := now - config.window;
      if now - lastSweep >= config.window {
        Sweep(cutoff);
        lastSweep := now;
      }
      var times := if key in attempts then attempts[key] else [];
      var recent: seq<int> := [];
      var i := 0;
      while i < |times|
        invariant 0 <= i <= |times|
        invariant recent == After(times[..i], cutoff)
      {
        assert times[..i + 1][..i] == times[..i];
        if times[i] > cutoff {
          recent := recent + [times[i]];
        }
        i := i + 1;
      }
      assert times[..i] == times;
      if |recent| >= config.limit {
        attempts := attempts[key := recent];
        return false;
      }
      recent := recent + [now];
      attempts := attempts[key := recent];
      return true;
    }

    /** Drops the keys with no attempt left after the cutoff, in whatever order they come. */
    method Sweep(cutoff: int)
      modifies this`attempts
      ensures attempts == map k | k in old(attempts) && !Idle(old(attempts)[k], cutoff) :: old(attempts)[k]
    {
      var keys := attempts.Keys;
      while keys != {}
        invariant keys <= old(attempts).Keys
        invariant attempts == map k | k in old(attempts) && (k in keys || !Idle(old(attempts)[k], cutoff)) ::
                                old(attempts)[k]
        decreases |keys|
      {
        var k :| k in keys;
        if Idle(attempts[k], cutoff) {
          attempts := attempts - {k};
        }
        keys := keys - {k};
      }
    }
  }

  // ---- Runs ------------------------------------------------------------------

  datatype Attempt = Attempt(key: string, time: int)

  ghost predicate Clocked(run: seq<Attempt>) {
    forall i, j :: 0 <= i < j < |run| ==> run[i].time <= run[j].time
  }

  /** The state and the answers after a run from an empty limiter. */
  function Play(c: Config, run: seq<Attempt>): (State, seq<bool>) {
    if run == [] then (State(map[], 0), [])
    else
      var (s, answers) := Play(c, run[..|run| - 1]);
      var a := run[|run| - 1];
      var (s', ok) := Ask(c, s, a.key, a.time);
      (s', answers + [ok])
  }

  /** The times at which a key was allowed. */
  function Granted(c: Config, run: seq<Attempt>, key: string): seq<int> {
    if run == [] then []
    else
      var a := run[|run| - 1];
      var before := Granted(c, run[..|run| - 1], key);
      if a.key == key && Ask(c, Play(c, run[..|run| - 1]).0, key, a.time).1 then before + [a.time] else before
  }

  lemma AfterAppend(times: seq<int>, t: int, c: int)
    ensures After(times + [t], c) == After(times, c) + if t > c then [t] else []
  {
    assert (times + [t])[..|times|] == times;
  }

  lemma {:induction false} AfterAfter(times: seq<int>, c: int, d: int)
    requires c <= d
    ensures After(After(times, c), d) == After(times, d)
  {
    if times != [] {
      var init, last := times[..|times| - 1], times[|times| - 1];
      AfterAfter(init, c, d);
      if last > c {
        AfterAppend(After(init, c), last, d);
      } else {
        assert After(times, c) == After(init, c) + [] == After(init, c);
        assert After(times, d) == After(init, d) + [] == After(init, d);
      }
    }
  }

  lemma {:induction false} AfterNone(times: seq<int>, c: int)
    requires forall t <- times :: t <= c
    ensures After(times, c) == []
  {
    if times != [] {
      assert times[|times| - 1] in times;
      var init := times[..|times| - 1];
      assert forall t <- init :: t in times;
      AfterNone(init, c);
    }
  }

  lemma AfterNothing()
    ensures forall d :: After([], d) == []
  {
  }

  ghost predicate Sorted(times: seq<int>) {
    forall i, j :: 0 <= i < j < |times| ==> times[i] <= times[j]
  }

  lemma {:induction false} AfterSorted(times: seq<int>, c: int)
    requires Sorted(times)
    ensures Sorted(After(times, c))
  {
    if times != [] {
      var init := times[..|times| - 1];
      AfterSorted(init, c);
      AllAtMostLast(times);
      AfterHolds(init, c);
      forall i | 0 <= i < |After(init, c)|
        ensures After(init, c)[i] <= times[|times| - 1]
      {
        assert After(init, c)[i] in After(init, c);
        assert After(init, c)[i] in init;
      }
    }
  }

  lemma AllAtMostLast(times: seq<int>)
    requires Sorted(times) && times != []
    ensures forall t <- times :: t <= times[|times| - 1]
  {
  }

  /** What the limiter remembers of a key agrees with the key's whole past wherever a later request can look. */
  ghost predicate Remembers(kept: seq<int>, past: seq<int>, cutoff: int) {
    Sorted(kept) && forall d :: d >= cutoff ==> After(kept, d) == After(past, d)
  }

  lemma SweepForgetsNothing(kept: seq<int>, past: seq<int>, cutoff: int)
    requires Remembers(kept, past, cutoff) && Idle(kept, cutoff)
    ensures Remembers([], past, cutoff)
  {
    forall d | d >= cutoff
      ensures After(past, d) == []
    {
      AllAtMost(kept, cutoff);
      AfterNone(kept, d);
    }
    AfterNothing();
  }

  lemma AllAtMost(kept: seq<int>, cutoff: int)
    requires Sorted(kept) && Idle(kept, cutoff)
    ensures forall t <- kept :: t <= cutoff
  {
    if kept != [] {
      AllAtMostLast(kept);
    }
  }

  lemma SweptRemembers(c: Config, s: State, key: string, past: seq<int>, now: int)
    requires Remembers(Times(s.attempts, key), past, now - c.window)
    ensures Remembers(Times(Swept(c, s, now).attempts, key), past, now - c.window)
  {
    hide Remembers;
    var kept := Times(s.attempts, key);
    if Times(Swept(c, s, now).attempts, key) != kept {
      SweepForgetsNothing(kept, past, now - c.window);
    }
  }

  lemma PruneRemembers(kept: seq<int>, past: seq<int>, cutoff: int)
    requires Remembers(kept, past, cutoff)
    ensures Remembers(After(kept, cutoff), past, cutoff) && After(kept, cutoff) == After(past, cutoff)
  {
    AfterSorted(kept, cutoff);
    forall d | d >= cutoff
      ensures After(After(kept, cutoff), d) == After(past, d)
    {
      AfterAfter(kept, cutoff, d);
    }
  }

  lemma GrantRemembers(kept: seq<int>, past: seq<int>, cutoff: int, now: int)
    requires Remembers(kept, past, cutoff) && forall t <- kept :: t <= now
    ensures Remembers(kept + [now], past + [now], cutoff)
  {
    assert forall i :: 0 <= i < |kept| ==> kept[i] in kept;
    forall d | d >= cutoff
      ensures After(kept + [now], d) == After(past + [now], d)
    {
      AfterAppend(kept, now, d);
      AfterAppend(past, now, d);
    }
  }

  /** An answer, and what it leaves, for one key: exactly those of a limiter that never forgets. */
  lemma AskRemembers(c: Config, s: State, key: string, now: int, other: string, past: seq<int>)
    requires Remembers(Times(s.attempts, other), past, now - c.window)
    requires forall t <- past :: t <= now
    ensures other == key ==> (Ask(c, s, key, now).1 <==> |After(past, now - c.window)| < c.limit)
    ensures Remembers(Times(Ask(c, s, key, now).0.attempts, other),
                      if other == key && Ask(c, s, key, now).1 then past + [now] else past,
                      now - c.window)
  {
    hide Remembers, Swept;
    var cutoff := now - c.window;
    SweptRemembers(c, s, other, past, now);
    if other == key {
      var kept := Times(Swept(c, s, now).attempts, key);
      PruneRemembers(kept, past, cutoff);
      if |After(kept, cutoff)| < c.limit {
        AfterHolds(past, cutoff);
        GrantRemembers(After(kept, cutoff), past, cutoff, now);
      }
    }
  }

  lemma {:induction false} GrantedBounds(c: Config, run: seq<Attempt>, key: string)
    requires Clocked(run)
    ensures Sorted(Granted(c, run, key))
    ensures forall t <- Granted(c, run, key) :: t <= run[|run| - 1].time
  {
    hide Ask, Play;
    if run != [] {
      var before := run[..|run| - 1];
      GrantedBounds(c, before, key);
      var past := Granted(c, before, key);
      assert before != [] ==> before[|before| - 1] == run[|run| - 2];
      assert forall i :: 0 <= i < |past| ==> past[i] in past;
    }
  }

  lemma {:induction false} PlayRemembers(c: Config, run: seq<Attempt>, key: string, now: int)
    requires Clocked(run) && (run != [] ==> run[|run| - 1].time <= now)
    ensures Remembers(Times(Play(c, run).0.attempts, key), Granted(c, run, key), now - c.window)
  {
    hide Ask, Remembers;
    if run == [] {
      NothingRemembered(now - c.window);
    } else {
      var before, a := run[..|run| - 1], run[|run| - 1];
      PlayRemembers(c, before, key, a.time);
      GrantedBounds(c, before, key);
      AskRemembers(c, Play(c, before).0, a.key, a.time, key, Granted(c, before, key));
      LaterRemembers(Times(Play(c, run).0.attempts, key), Granted(c, run, key), a.time - c.window, now - c.window);
    }
  }

  lemma NothingRemembered(cutoff: int)
    ensures Remembers([], [], cutoff)
  {
  }

  lemma LaterRemembers(kept: seq<int>, past: seq<int>, c: int, d: int)
    requires Remembers(kept, past, c) && c <= d
    ensures Remembers(kept, past, d)
  {
  }

  lemma {:induction false} PlayLength(c: Config, run: seq<Attempt>)
    ensures |Play(c, run).1| == |run|
  {
    hide Ask;
    if run != [] {
      PlayLength(c, run[..|run| - 1]);
    }
  }

  // ---- Main results ------------------------------------------------------------

  /**
   * Pruning and sweeping are invisible: with a clock that never goes back, a request is allowed
   * exactly when fewer than the limit were allowed to its key within the window, of all that ever
   * were.
   */
  lemma AnswersAsIfNothingForgotten(c: Config, run: seq<Attempt>, a: Attempt)
    requires Clocked(run + [a])
    ensures Play(c, run + [a]).1 == Play(c, run).1 + [|After(Granted(c, run, a.key), a.time - c.window)| < c.limit]
  {
    hide Ask, Remembers, After, Clocked;
    assert (run + [a])[..|run|] == run;
    ClockedBefore(run, a);
    PlayRemembers(c, run, a.key, a.time);
    GrantedUntil(c, run, a.key, a.time);
    AskRemembers(c, Play(c, run).0, a.key, a.time, a.key, Granted(c, run, a.key));
  }

  /** The times in an interval, open below and closed above. */
  ghost function Within(times: seq<int>, from: int, to: int): seq<int> {
    if times == [] then []
    else
      var last := times[|times| - 1];
      Within(times[..|times| - 1], from, to) + if from < last <= to then [last] else []
  }

  lemma {:induction false} WithinAfter(times: seq<int>, from: int, to: int)
    ensures |Within(times, from, to)| <= |After(times, from)|
  {
    if times != [] {
      WithinAfter(times[..|times| - 1], from, to);
    }
  }

  lemma {:induction false} AfterFewer(times: seq<int>, c: int, d: int)
    requires c <= d
    ensures |After(times, d)| <= |After(times, c)|
  {
    AfterAfter(times, c, d);
  }

  lemma WithinAppend(times: seq<int>, t: int, from: int, to: int)
    ensures Within(times + [t], from, to) == Within(times, from, to) + if from < t <= to then [t] else []
  {
    assert (times + [t])[..|times|] == times;
  }

  lemma GrantedStep(c: Config, before: seq<Attempt>, a: Attempt, key: string)
    ensures Granted(c, before + [a], key) ==
            Granted(c, before, key) + if a.key == key && Ask(c, Play(c, before).0, key, a.time).1 then [a.time] else []
  {
    hide Ask, Play;
    assert (before + [a])[..|before|] == before;
  }

  /** A grant to a key finds fewer than the limit in the window behind it. */
  lemma GrantFindsRoom(c: Config, before: seq<Attempt>, a: Attempt, key: string)
    requires Clocked(before + [a])
    ensures var past := Granted(c, before, key);
            var now := Granted(c, before + [a], key);
            now == past || (now == past + [a.time] && |After(past, a.time - c.window)| < c.limit)
  {
    hide Ask, Remembers, After, Play, Granted;
    ClockedBefore(before, a);
    hide Clocked;
    GrantedStep(c, before, a, key);
    if a.key == key {
      PlayRemembers(c, before, key, a.time);
      GrantedUntil(c, before, key, a.time);
      AskRemembers(c, Play(c, before).0, key, a.time, key, Granted(c, before, key));
    }
  }

  lemma GrantedUntil(c: Config, run: seq<Attempt>, key: string, now: int)
    requires Clocked(run) && (run != [] ==> run[|run| - 1].time <= now)
    ensures forall t <- Granted(c, run, key) :: t <= now
  {
    hide Ask, Play;
    GrantedBounds(c, run, key);
  }

  lemma ClockedBefore(before: seq<Attempt>, a: Attempt)
    requires Clocked(before + [a])
    ensures Clocked(before) && (before != [] ==> before[|before| - 1].time <= a.time)
  {
    assert forall i :: 0 <= i < |before| ==> (before + [a])[i] == before[i];
    assert before != [] ==> (before + [a])[|before| - 1].time <= (before + [a])[|before|].time;
  }

  /** One more grant that finds room keeps the bound on an interval. */
  lemma GrantKeepsBound(past: seq<int>, t: int, from: int, window: nat, limit: int)
    requires |After(past, t - window)| < limit && |Within(past, from, from + window)| <= limit
    ensures |Within(past + [t], from, from + window)| <= limit
  {
    WithinAppend(past, t, from, from + window);
    if from < t <= from + window {
      WithinAfter(past, from, from + window);
      AfterFewer(past, t - window, from);
    }
  }

  /** No key is allowed more than limit times within any interval as long as the window. */
  lemma {:induction false} NeverMoreThanLimit(c: Config, run: seq<Attempt>, key: string, from: int)
    requires Clocked(run)
    ensures |Within(Granted(c, run, key), from, from + c.window)| <= if c.limit < 0 then 0 else c.limit
  {
    hide Clocked, Granted, Within, After;
    if run == [] {
      NoneGranted(c, key, from);
    } else {
      var before, a := run[..|run| - 1], run[|run| - 1];
      assert run == before + [a];
      ClockedBefore(before, a);
      NeverMoreThanLimit(c, before, key, from);
      GrantFindsRoom(c, before, a, key);
      if Granted(c, run, key) != Granted(c, before, key) {
        GrantKeepsBound(Granted(c, before, key), a.time, from, c.window, c.limit);
      }
    }
  }

  lemma NoneGranted(c: Config, key: string, from: int)
    ensures Within(Granted(c, [], key), from, from + c.window) == []
  {
  }
}
