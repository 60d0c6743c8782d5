// Who fetches a search query from IGDB (internal/catalog/service.go), as
// interleaved steps. A search's refresh is admitted under lifecycleMu, held
// from entry to exit; running workers give back their slot, unmark their key
// and finish one step at a time. The daily job that refreshes expired queries
// fetches them one by one, and neither takes a slot nor marks a key.
module SearchRefresh {
  const SLOTS := 2
  const STALE_LIMIT := 50

  /** Where the caller holding lifecycleMu is; none when the lock is free. */
  datatype Admission =
    | NoCaller
    | Checking(key: string)
    | Marked(key: string, done: nat)
    | Slotted(key: string, done: nat)
    | Refused(key: string, done: nat)

  /** A goroutine: a refresh fetching, with its slot given back, with its key unmarked, or another worker. */
  datatype Worker =
    | Fetching(key: string, done: nat)
    | Released(key: string, done: nat)
    | Unmarked
    | Plain

  /** Where the daily job is: not running, between two keys of its list, or waiting for an answer. */
  datatype Job =
    | Idle
    | Listed(keys: seq<string>)
    | Asking(key: string, rest: seq<string>)

  /**
   * refreshing maps a key to its channel, channels and workers being numbered as they are made;
   * waitGroup is the count workers keeps.
   */
  datatype State = State(
    stopping: bool,
    stopped: bool,
    admission: Admission,
    refreshing: map<string, nat>,
    closed: set<nat>,
    slots: nat,
    waitGroup: int,
    live: map<nat, Worker>,
    nextChannel: nat,
    nextWorker: nat,
    job: Job)

  const START := State(false, false, NoCaller, map[], {}, 0, 0, map[], 0, 0, Idle)

  datatype Step =
    | Enter(key: string)
    | Mark
    | TrySlot
    | Drop
    | Launch
    | StartWorker
    | Release(id: nat)
    | Unmark(id: nat)
    | Finish(id: nat)
    | BeginShutdown
    | CloseStopped
    | ListStale(keys: seq<string>)
    | Ask
    | Answer
    | EndJob

  /**
   * What can happen next: a caller enters or moves on, a worker moves on, the lock being free for
   * whoever takes it. The runner of jobs starts a job again only after it ended, and a job ends early
   * when its context does.
   */
  predicate Enabled(s: State, step: Step) {
    match step
    case Enter(_) => s.admission.NoCaller?
    case Mark => s.admission.Checking?
    case TrySlot => s.admission.Marked?
    case Drop => s.admission.Refused?
    case Launch => s.admission.Slotted?
    case StartWorker => s.admission.NoCaller?
    case Release(id) => id in s.live && s.live[id].Fetching? && s.slots > 0
    case Unmark(id) => id in s.live && s.live[id].Released?
    case Finish(id) => id in s.live && (s.live[id].Unmarked? || s.live[id].Plain?)
    case BeginShutdown => s.admission.NoCaller?
    case CloseStopped => s.stopping && !s.stopped && s.waitGroup == 0
    case ListStale(keys) => s.job.Idle? && |keys| <= STALE_LIMIT
    case Ask => s.job.Listed? && s.job.keys != []
    case Answer => s.job.Asking?
    case EndJob => s.job.Listed?
  }

  function Apply(s: State, step: Step): State
    requires Enabled(s, step)
  {
    match step
    case Enter(key) => if s.stopping then s else s.(admission := Checking(key))
    case Mark =>
      var key := s.admission.key;
      if key in s.refreshing then s.(admission := NoCaller)
      else
        s.(admission := Marked(key, s.nextChannel),
           refreshing := s.refreshing[key := s.nextChannel],
           nextChannel := s.nextChannel + 1)
    case TrySlot =>
      var Marked(key, done) := s.admission;
      if s.slots < SLOTS then s.(admission := Slotted(key, done), slots := s.slots + 1)
      else s.(admission := Refused(key, done))
    case Drop =>
      s.(admission := NoCaller, refreshing := s.refreshing - {s.admission.key}, closed := s.closed + {s.admission.done})
    case Launch =>
      s.(admission := NoCaller,
         waitGroup := s.waitGroup + 1,
         live := s.live[s.nextWorker := Fetching(s.admission.key, s.admission.done)],
         nextWorker := s.nextWorker + 1)
    case StartWorker =>
      if s.stopping then s
      else s.(waitGroup := s.waitGroup + 1, live := s.live[s.nextWorker := Plain], nextWorker := s.nextWorker + 1)
    case Release(id) =>
      s.(slots := s.slots - 1, live := s.live[id := Released(s.live[id].key, s.live[id].done)])
    case Unmark(id) =>
      s.(refreshing := s.refreshing - {s.live[id].key}, closed := s.closed + {s.live[id].done},
         live := s.live[id := Unmarked])
    case Finish(id) => s.(waitGroup := s.waitGroup - 1, live := s.live - {id})
    case BeginShutdown => s.(stopping := true)
    case CloseStopped => s.(stopped := true)
    case ListStale(keys) => s.(job := Listed(keys))
    case Ask => s.(job := Asking(Refetched(s.job.keys[0]), s.job.keys[1..]))
    case Answer => s.(job := Listed(s.job.rest))
    case EndJob => s.(job := Idle)
  }

  /** A run: every step enabled where it happens. */
  ghost predicate Runs(s: State, steps: seq<Step>)
    decreases |steps|
  {
    steps == [] || (Enabled(s, steps[0]) && Runs(Apply(s, steps[0]), steps[1..]))
  }

  ghost function After(s: State, steps: seq<Step>): State
    requires Runs(s, steps)
    decreases |steps|
  {
    if steps == [] then s else After(Apply(s, steps[0]), steps[1..])
  }

  // ---- Cache keys ----------------------------------------------------------------

  const PREFIX := "search:"
  const EDITIONS := ":editions"

  function CacheKey(query: string, includeEditions: bool): string {
    if includeEditions then PREFIX + query + EDITIONS else PREFIX + query
  }

  predicate EndsWith(s: string, suffix: string) {
    |suffix| <= |s| && s[|s| - |suffix|..] == suffix
  }

  function ParseCacheKey(key: string): (string, bool) {
    if !(PREFIX <= key) then (key, false)
    else
      var trimmed := key[|PREFIX|..];
      if EndsWith(trimmed, EDITIONS) then (trimmed[..|trimmed| - |EDITIONS|], true) else (trimmed, false)
  }

  /** A key is parsed back into its query and flag exactly when a plain query does not itself end like the flag. */
  lemma CacheKeyRoundTrip(query: string, includeEditions: bool)
    ensures ParseCacheKey(CacheKey(query, includeEditions)) == (query, includeEditions) <==>
            includeEditions || !EndsWith(query, EDITIONS)
  {
    var key := CacheKey(query, includeEditions);
    if includeEditions {
      assert key[|PREFIX|..] == query + EDITIONS;
      assert (query + EDITIONS)[|query|..] == EDITIONS;
    } else {
      assert key[|PREFIX|..] == query;
    }
  }

  /** NormalizeName turns every ':' into a blank, so the keys of normalized queries are always parsed back. */
  lemma NormalizedKeyRoundTrip(query: string, includeEditions: bool)
    requires ':' !in query
    ensures ParseCacheKey(CacheKey(query, includeEditions)) == (query, includeEditions)
  {
    CacheKeyRoundTrip(query, includeEditions);
    HasColon(query);
    hide ParseCacheKey;
  }

  /** The key under which the job caches what it fetched for a row's key. */
  function Refetched(key: string): string {
    var (query, includeEditions) := ParseCacheKey(key);
    CacheKey(query, includeEditions)
  }

  /** The job renews the row it read exactly when its key has the prefix, as every key of a search has. */
  lemma JobRenewsRow(key: string)
    ensures Refetched(key) == key <==> PREFIX <= key
  {
    if PREFIX <= key {
      assert key == PREFIX + key[|PREFIX|..];
      var trimmed := key[|PREFIX|..];
      if EndsWith(trimmed, EDITIONS) {
        assert trimmed == trimmed[..|trimmed| - |EDITIONS|] + EDITIONS;
      }
    }
  }

  lemma HasColon(s: string)
    ensures EndsWith(s, EDITIONS) ==> ':' in s
  {
    if EndsWith(s, EDITIONS) { assert s[|s| - |EDITIONS|] == s[|s| - |EDITIONS|..][0] == ':'; }
  }

  // ---- The service as an object ---------------------------------------------------

  /** The steps of one call of startAsyncRefresh with no worker moving in between. */
  function AdmissionSteps(s: State, key: string): seq<Step> {
    if s.stopping then [Enter(key)]
    else if key in s.refreshing then [Enter(key), Mark]
    else if s.slots < SLOTS then [Enter(key), Mark, TrySlot, Launch]
    else [Enter(key), Mark, TrySlot, Drop]
  }

  class Service {
    var stopping: bool
    var stopped: bool
    var refreshing: map<string, nat>
    var closed: set<nat>
    var slots: nat
    var waitGroup: int
    var live: map<nat, Worker>
    var nextChannel: nat
    var nextWorker: nat
    var job: Job

    constructor ()
      ensures Current() == START
    {
      stopping, stopped, refreshing, closed, slots, waitGroup, live := false, false, map[], {}, 0, 0, map[];
      nextChannel, nextWorker, job := 0, 0, Idle;
    }

    ghost function Current(): State
      reads this
    {
      State(stopping, stopped, NoCaller, refreshing, closed, slots, waitGroup, live, nextChannel, nextWorker, job)
    }

    method StartAsyncRefresh(key: string)
      modifies this
      ensures Runs(old(Current()), AdmissionSteps(old(Current()), key))
      ensures Current() == After(old(Current()), AdmissionSteps(old(Current()), key))
    {
      hide Runs, After;
      ghost var s := Current();
      ghost var steps := AdmissionSteps(s, key);
      AdmissionRuns(s, key);
      if stopping {
        return;
      }
      if key in refreshing {
        return;
      }
      var done := nextChannel;
      nextChannel := nextChannel + 1;
      refreshing := refreshing[key := done];
      if slots < SLOTS {
        slots := slots + 1;
      } else {
        refreshing := refreshing - {key};
        closed := closed + {done};
        return;
      }
      waitGroup := waitGroup + 1;
      live := live[nextWorker := Fetching(key, done)];
      nextWorker := nextWorker + 1;
    }

    /** What a refresh does on its way out, with nothing moving in between. */
    method FinishRefresh(id: nat)
      requires id in live && live[id].Fetching? && slots > 0
      modifies this
      ensures Runs(old(Current()), [Release(id), Unmark(id), Finish(id)])
      ensures Current() == After(old(Current()), [Release(id), Unmark(id), Finish(id)])
    {
      hide Runs, After;
      FinishRuns(Current(), id);
      var w := live[id];
      slots := slots - 1;
      refreshing := refreshing - {w.key};
      closed := closed + {w.done};
      live := live - {id};
      waitGroup := waitGroup - 1;
    }

    method StartOther()
      modifies this
      ensures Current() == Apply(old(Current()), StartWorker)
    {
      if stopping {
        return;
      }
      waitGroup := waitGroup + 1;
      live := live[nextWorker := Plain];
      nextWorker := nextWorker + 1;
    }

    /**
     * The job's loop over the keys it listed, its context ending after some answers, with nothing
     * moving in between.
     */
    method RefreshStaleQueries(keys: seq<string>, answers: nat) returns (asked: seq<string>)
      requires job.Idle? && |keys| <= STALE_LIMIT
      modifies this`job
      ensures var n := if answers < |keys| then answers else |keys|;
              && asked == seq(n, i requires 0 <= i < n => Refetched(keys[i]))
              && Runs(old(Current()), [ListStale(keys)] + JobSteps(n))
              && Current() == After(old(Current()), [ListStale(keys)] + JobSteps(n)) == old(Current())
    {
      hide Runs, After, Refetched;
      JobRuns(Current(), keys, if answers < |keys| then answers else |keys|);
      asked := [];
      job := Listed(keys);
      var i := 0;
      while i < |keys| && i < answers
        invariant 0 <= i <= |keys| && i <= answers && job == Listed(keys[i..])
        invariant asked == seq(i, j requires 0 <= j < i => Refetched(keys[j]))
        invariant Current().(job := Idle) == old(Current())
      {
        var key := Refetched(keys[i]);
        job := Asking(key, keys[i + 1..]);
        asked := asked + [key];
        job := Listed(keys[i + 1..]);
        i := i + 1;
      }
      job := Idle;
    }

    method Shutdown()
      modifies this
      ensures Current() == Apply(old(Current()), BeginShutdown)
    {
      if !stopping {
        stopping := true;
      }
    }
  }

  /** The job's way through its list, ending after n answers. */
  function JobSteps(n: nat): seq<Step> {
    if n == 0 then [EndJob] else [Ask] + ([Answer] + JobSteps(n - 1))
  }

  lemma JobRuns(s: State, keys: seq<string>, n: nat)
    requires s.job.Idle? && |keys| <= STALE_LIMIT && n <= |keys|
    ensures Runs(s, [ListStale(keys)] + JobSteps(n)) && After(s, [ListStale(keys)] + JobSteps(n)) == s
  {
    hide Runs, After;
    ListedRuns(s.(job := Listed(keys)), n);
    Leading(s, ListStale(keys), JobSteps(n));
  }

  lemma {:induction false} ListedRuns(s: State, n: nat)
    requires s.job.Listed? && n <= |s.job.keys|
    ensures Runs(s, JobSteps(n)) && After(s, JobSteps(n)) == s.(job := Idle)
    decreases n
  {
    hide Runs, After;
    if n == 0 {
      RunNothing(Apply(s, EndJob));
      Leading(s, EndJob, []);
      assert [EndJob] + [] == [EndJob];
    } else {
      var asking := Apply(s, Ask);
      var answered := Apply(asking, Answer);
      ListedRuns(answered, n - 1);
      Leading(asking, Answer, JobSteps(n - 1));
      Leading(s, Ask, [Answer] + JobSteps(n - 1));
    }
  }

  lemma FinishRuns(s: State, id: nat)
    requires id in s.live && s.live[id].Fetching? && s.slots > 0
    ensures Runs(s, [Release(id), Unmark(id), Finish(id)])
    ensures var w := s.live[id];
            After(s, [Release(id), Unmark(id), Finish(id)]) ==
            s.(slots := s.slots - 1, refreshing := s.refreshing - {w.key}, closed := s.closed + {w.done},
               live := s.live - {id}, waitGroup := s.waitGroup - 1)
  {
    hide Runs, After;
    var a := Apply(s, Release(id));
    var b := Apply(a, Unmark(id));
    RunNothing(Apply(b, Finish(id)));
    Leading(b, Finish(id), []);
    assert [Finish(id)] + [] == [Finish(id)];
    Leading(a, Unmark(id), [Finish(id)]);
    Leading(s, Release(id), [Unmark(id)] + [Finish(id)]);
    assert [Release(id)] + ([Unmark(id)] + [Finish(id)]) == [Release(id), Unmark(id), Finish(id)];
    assert b.live - {id} == s.live - {id};
  }

  lemma AdmissionRuns(s: State, key: string)
    requires s.admission.NoCaller?
    ensures Runs(s, AdmissionSteps(s, key))
    ensures After(s, AdmissionSteps(s, key)) ==
            if s.stopping || key in s.refreshing then s
            else if s.slots < 2 then
              s.(nextChannel := s.nextChannel + 1, refreshing := s.refreshing[key := s.nextChannel],
                 slots := s.slots + 1,
                 waitGroup := s.waitGroup + 1, live := s.live[s.nextWorker := Fetching(key, s.nextChannel)],
                 nextWorker := s.nextWorker + 1)
            else
              s.(nextChannel := s.nextChannel + 1, refreshing := s.refreshing[key := s.nextChannel] - {key},
                 closed := s.closed + {s.nextChannel})
  {
    if s.stopping {
      TurnedAway(s, key);
      hide Runs, After, Apply;
    } else if key in s.refreshing {
      FoundMarked(s, key);
      hide Runs, After, Apply;
    } else {
      NewKeyRuns(s, key);
      hide Runs, After;
    }
  }

  lemma TurnedAway(s: State, key: string)
    requires s.admission.NoCaller? && s.stopping
    ensures Runs(s, [Enter(key)]) && After(s, [Enter(key)]) == s
  {
    hide Runs, After;
    RunNothing(s);
    Leading(s, Enter(key), []);
    assert [Enter(key)] + [] == [Enter(key)];
  }

  lemma FoundMarked(s: State, key: string)
    requires s.admission.NoCaller? && !s.stopping && key in s.refreshing
    ensures Runs(s, [Enter(key), Mark]) && After(s, [Enter(key), Mark]) == s
  {
    hide Runs, After;
    var entered := Apply(s, Enter(key));
    RunNothing(s);
    Leading(entered, Mark, []);
    assert [Mark] + [] == [Mark];
    Leading(s, Enter(key), [Mark]);
    assert [Enter(key)] + [Mark] == [Enter(key), Mark];
  }

  lemma NewKeyRuns(s: State, key: string)
    requires s.admission.NoCaller? && !s.stopping && key !in s.refreshing
    ensures var last := if s.slots < SLOTS then Launch else Drop;
            var steps := [Enter(key), Mark, TrySlot, last];
            && Runs(s, steps)
            && After(s, steps) == Apply(Apply(Apply(Apply(s, Enter(key)), Mark), TrySlot), last)
  {
    hide Runs, After;
    var entered := Apply(s, Enter(key));
    var marked := Apply(entered, Mark);
    var tried := Apply(marked, TrySlot);
    var last := if s.slots < SLOTS then Launch else Drop;
    RunNothing(Apply(tried, last));
    Leading(tried, last, []);
    assert [last] + [] == [last];
    Leading(marked, TrySlot, [last]);
    Leading(entered, Mark, [TrySlot] + [last]);
    Leading(s, Enter(key), [Mark] + ([TrySlot] + [last]));
    assert [Enter(key)] + ([Mark] + ([TrySlot] + [last])) == [Enter(key), Mark, TrySlot, last];
  }

  // ---- The invariant -----------------------------------------------------------

  ghost function Fetchers(s: State): set<nat> {
    set id | id in s.live && s.live[id].Fetching?
  }

  /** Owners of a marked key: the caller from marking to exit, a refresh until it unmarks. */
  predicate CallerOwns(s: State, key: string) {
    (s.admission.Marked? || s.admission.Slotted? || s.admission.Refused?) && s.admission.key == key
  }

  predicate WorkerOwns(s: State, id: nat, key: string) {
    id in s.live && (s.live[id].Fetching? || s.live[id].Released?) && s.live[id].key == key
  }

  ghost predicate SlotsCounted(s: State) {
    && |Fetchers(s)| + (if s.admission.Slotted? then 1 else 0) == s.slots
    && s.slots <= SLOTS
  }

  ghost predicate WorkersCounted(s: State) {
    && s.waitGroup == |s.live|
    && (forall id <- s.live :: id < s.nextWorker)
  }

  ghost predicate OneOwner(s: State) {
    && (forall key <- s.refreshing :: CallerOwns(s, key) || exists id :: WorkerOwns(s, id, key))
    && (forall id, key {:trigger WorkerOwns(s, id, key)} :: WorkerOwns(s, id, key) ==> !CallerOwns(s, key))
    && (forall id, other, key {:trigger WorkerOwns(s, id, key), WorkerOwns(s, other, key)} ::
          WorkerOwns(s, id, key) && WorkerOwns(s, other, key) ==> id == other)
  }

  /** An owner's key is marked with its own channel, which is still open. */
  ghost predicate CallerMarked(s: State) {
    forall key {:trigger CallerOwns(s, key)} ::
      CallerOwns(s, key) ==>
        key in s.refreshing && s.refreshing[key] == s.admission.done && s.admission.done !in s.closed
  }

  ghost predicate WorkersMarked(s: State) {
    forall id, key {:trigger WorkerOwns(s, id, key)} ::
      WorkerOwns(s, id, key) ==>
        key in s.refreshing && s.refreshing[key] == s.live[id].done && s.live[id].done !in s.closed
  }

  /** Channels are numbered apart. */
  ghost predicate ChannelsApart(s: State) {
    && (forall c <- s.closed :: c < s.nextChannel)
    && (forall key <- s.refreshing :: s.refreshing[key] < s.nextChannel)
    && (forall k, l {:trigger s.refreshing[k], s.refreshing[l]} ::
          k in s.refreshing && l in s.refreshing && k != l ==> s.refreshing[k] != s.refreshing[l])
  }

  ghost predicate OwnersMarked(s: State) {
    CallerMarked(s) && WorkersMarked(s) && ChannelsApart(s)
  }

  ghost predicate Shut(s: State) {
    && (s.stopping ==> s.admission.NoCaller?)
    && (s.stopped ==> s.stopping && s.waitGroup == 0)
  }

  ghost predicate Inv(s: State) {
    SlotsCounted(s) && WorkersCounted(s) && OneOwner(s) && OwnersMarked(s) && Shut(s)
  }

  lemma StepKeepsSlots(s: State, step: Step)
    requires SlotsCounted(s) && WorkersCounted(s) && Enabled(s, step)
    ensures SlotsCounted(Apply(s, step))
  {
    FetchersAfter(s, step);
    if step.Release? {
      assert step.id in Fetchers(s);
    }
    hide Fetchers;
  }

  lemma FetchersAfter(s: State, step: Step)
    requires WorkersCounted(s) && Enabled(s, step)
    ensures Fetchers(Apply(s, step)) ==
            if step.Launch? then Fetchers(s) + {s.nextWorker}
            else if step.Release? then Fetchers(s) - {step.id}
            else Fetchers(s)
    ensures s.nextWorker !in Fetchers(s)
  {
  }

  lemma StepKeepsWorkers(s: State, step: Step)
    requires WorkersCounted(s) && Enabled(s, step)
    ensures WorkersCounted(Apply(s, step))
  {
    var t := Apply(s, step);
    LiveKeys(s, step);
    if t.live.Keys == s.live.Keys + {s.nextWorker} && s.nextWorker !in s.live {
      assert |t.live.Keys| == |s.live.Keys| + 1;
    }
  }

  /** Only launching adds a worker and only finishing takes one away. */
  lemma LiveKeys(s: State, step: Step)
    requires Enabled(s, step)
    ensures Apply(s, step).live.Keys ==
            if step.Launch? || (step.StartWorker? && !s.stopping) then s.live.Keys + {s.nextWorker}
            else if step.Finish? then s.live.Keys - {step.id}
            else s.live.Keys
  {
  }

  /** Who owned what before a step, for what is owned after it. */
  lemma OwnedBefore(s: State, step: Step, id: nat, key: string)
    requires Enabled(s, step) && WorkersCounted(s) && WorkerOwns(Apply(s, step), id, key)
    ensures WorkerOwns(s, id, key) || (step.Launch? && id == s.nextWorker && CallerOwns(s, key))
    ensures Apply(s, step).live[id].done == if WorkerOwns(s, id, key) then s.live[id].done else s.admission.done
  {
  }

  lemma StepKeepsOwner(s: State, step: Step)
    requires OneOwner(s) && OwnersMarked(s) && WorkersCounted(s) && Enabled(s, step)
    ensures OneOwner(Apply(s, step))
  {
    hide ChannelsApart;
    var t := Apply(s, step);
    forall key | key in t.refreshing
      ensures CallerOwns(t, key) || exists id :: WorkerOwns(t, id, key)
    {
      if key in s.refreshing && !CallerOwns(s, key) {
        var id :| WorkerOwns(s, id, key);
        assert WorkerOwns(t, id, key);
      } else if step.Launch? {
        assert WorkerOwns(t, s.nextWorker, key);
      }
    }
    forall id, key | WorkerOwns(t, id, key)
      ensures !CallerOwns(t, key)
      ensures forall other :: WorkerOwns(t, other, key) ==> id == other
    {
      OwnedBefore(s, step, id, key);
      forall other | WorkerOwns(t, other, key)
        ensures id == other
      {
        OwnedBefore(s, step, other, key);
      }
    }
  }

  lemma StepKeepsCallerMarked(s: State, step: Step)
    requires OneOwner(s) && OwnersMarked(s) && Enabled(s, step)
    ensures CallerMarked(Apply(s, step))
  {
    var t := Apply(s, step);
    forall key | CallerOwns(t, key)
      ensures key in t.refreshing && t.refreshing[key] == t.admission.done && t.admission.done !in t.closed
    {
      if !step.Mark? {
        assert CallerOwns(s, key);
        if step.Unmark? {
          assert WorkerOwns(s, step.id, s.live[step.id].key);
        }
      }
    }
  }

  lemma StepKeepsWorkersMarked(s: State, step: Step)
    requires OneOwner(s) && OwnersMarked(s) && WorkersCounted(s) && Enabled(s, step)
    ensures WorkersMarked(Apply(s, step))
  {
    hide OneOwner;
    var t := Apply(s, step);
    forall id, key | WorkerOwns(t, id, key)
      ensures key in t.refreshing && t.refreshing[key] == t.live[id].done && t.live[id].done !in t.closed
    {
      OwnedBefore(s, step, id, key);
      if step.Drop? {
        assert CallerOwns(s, s.admission.key);
        Alone(s, id, key);
      } else if step.Unmark? {
        assert WorkerOwns(s, step.id, s.live[step.id].key);
        if key == s.live[step.id].key {
          SameWorker(s, id, step.id, key);
        }
      }
    }
  }

  lemma Alone(s: State, id: nat, key: string)
    requires OneOwner(s) && WorkerOwns(s, id, key)
    ensures !CallerOwns(s, key)
  {
  }

  lemma SameWorker(s: State, id: nat, other: nat, key: string)
    requires OneOwner(s) && WorkerOwns(s, id, key) && WorkerOwns(s, other, key)
    ensures id == other
  {
  }

  lemma StepKeepsApart(s: State, step: Step)
    requires OwnersMarked(s) && Enabled(s, step)
    ensures ChannelsApart(Apply(s, step))
  {
    if step.Drop? {
      assert CallerOwns(s, s.admission.key);
    } else if step.Unmark? {
      assert WorkerOwns(s, step.id, s.live[step.id].key);
    }
  }

  lemma StepKeepsMarked(s: State, step: Step)
    requires OneOwner(s) && OwnersMarked(s) && WorkersCounted(s) && Enabled(s, step)
    ensures OwnersMarked(Apply(s, step))
  {
    hide OneOwner, CallerMarked, WorkersMarked, ChannelsApart, WorkersCounted;
    StepKeepsCallerMarked(s, step);
    StepKeepsWorkersMarked(s, step);
    StepKeepsApart(s, step);
  }

  lemma StepKeepsInv(s: State, step: Step)
    requires Inv(s) && Enabled(s, step)
    ensures Inv(Apply(s, step))
  {
    hide SlotsCounted, WorkersCounted, OneOwner, OwnersMarked;
    StepKeepsSlots(s, step);
    StepKeepsWorkers(s, step);
    StepKeepsOwner(s, step);
    StepKeepsMarked(s, step);
    StepKeepsShut(s, step);
  }

  lemma StepKeepsShut(s: State, step: Step)
    requires Shut(s) && WorkersCounted(s) && Enabled(s, step)
    ensures Shut(Apply(s, step))
  {
    if step.Finish? {
      assert |s.live| > 0;
    }
  }

  lemma StartInv()
    ensures Inv(START)
  {
  }

  lemma {:induction false} RunKeepsInv(s: State, steps: seq<Step>)
    requires Inv(s) && Runs(s, steps)
    ensures Inv(After(s, steps))
    decreases |steps|
  {
    hide Inv, Enabled, Apply;
    if steps != [] {
      StepKeepsInv(s, steps[0]);
      RunKeepsInv(Apply(s, steps[0]), steps[1..]);
    }
  }

  // ---- Main results --------------------------------------------------------------

  /** A query being fetched from IGDB: for a search by a worker, or by the job. */
  datatype Fetch = ByWorker(id: nat) | ByJob

  ghost function Fetches(s: State): set<Fetch> {
    (set id | id in Fetchers(s) :: ByWorker(id)) + (if s.job.Asking? then {ByJob} else {})
  }

  ghost function KeyOf(s: State, f: Fetch): string
    requires f in Fetches(s)
  {
    if f.ByJob? then s.job.key else s.live[f.id].key
  }

  /** The job is fetching a key that a worker fetches too. */
  ghost predicate JobDoubles(s: State) {
    s.job.Asking? && exists id :: id in Fetchers(s) && s.live[id].key == s.job.key
  }

  ghost predicate TwoShareAKey(s: State) {
    exists f, g :: f in Fetches(s) && g in Fetches(s) && f != g && KeyOf(s, f) == KeyOf(s, g)
  }

  /**
   * In every interleaving the refreshes that searches start fetch at most two at once and never two
   * for one key. The job's fetch comes on top: at most three queries are fetched at once, and two of
   * them share a key exactly when the job is fetching a key that a worker also fetches.
   */
  lemma RefreshesBounded(steps: seq<Step>)
    requires Runs(START, steps)
    ensures var s := After(START, steps);
            && |Fetchers(s)| <= 2
            && (forall a, b :: a in Fetchers(s) && b in Fetchers(s) && a != b ==> s.live[a].key != s.live[b].key)
            && |Fetches(s)| <= 3
            && (TwoShareAKey(s) <==> JobDoubles(s))
  {
    hide Runs, After;
    StartInv();
    RunKeepsInv(START, steps);
    var s := After(START, steps);
    WorkersFetchApart(s);
    FetchesCounted(s);
    hide Inv;
    SharedByJob(s);
  }

  lemma WorkersFetchApart(s: State)
    requires Inv(s)
    ensures forall a, b :: a in Fetchers(s) && b in Fetchers(s) && a != b ==> s.live[a].key != s.live[b].key
  {
    forall a, b | a in Fetchers(s) && b in Fetchers(s) && a != b
      ensures s.live[a].key != s.live[b].key
    {
      assert WorkerOwns(s, a, s.live[a].key);
      assert WorkerOwns(s, b, s.live[b].key);
    }
  }

  lemma FetchesCounted(s: State)
    ensures |Fetches(s)| == |Fetchers(s)| + (if s.job.Asking? then 1 else 0)
  {
    var workers := set id | id in Fetchers(s) :: ByWorker(id);
    SameSize(Fetchers(s), workers);
    assert ByJob !in workers;
    hide Fetchers;
  }

  lemma {:induction false} SameSize(ids: set<nat>, workers: set<Fetch>)
    requires workers == set id | id in ids :: ByWorker(id)
    ensures |workers| == |ids|
    decreases ids
  {
    if ids != {} {
      var id :| id in ids;
      assert workers - {ByWorker(id)} == set x | x in ids - {id} :: ByWorker(x);
      SameSize(ids - {id}, workers - {ByWorker(id)});
    }
  }

  lemma SharedByJob(s: State)
    requires forall a, b :: a in Fetchers(s) && b in Fetchers(s) && a != b ==> s.live[a].key != s.live[b].key
    ensures TwoShareAKey(s) <==> JobDoubles(s)
  {
    if JobDoubles(s) {
      var id :| id in Fetchers(s) && s.live[id].key == s.job.key;
      assert ByWorker(id) in Fetches(s) && ByJob in Fetches(s);
      assert KeyOf(s, ByWorker(id)) == KeyOf(s, ByJob);
    }
  }

  lemma {:induction false} RunsOn(s: State, first: seq<Step>, more: seq<Step>)
    requires Runs(s, first) && Runs(After(s, first), more)
    ensures Runs(s, first + more) && After(s, first + more) == After(After(s, first), more)
    decreases |first|
  {
    hide Enabled, Apply;
    if first == [] {
      assert first + more == more;
    } else {
      assert (first + more)[1..] == first[1..] + more;
      RunsOn(Apply(s, first[0]), first[1..], more);
    }
  }

  /** Two searches' refreshes and then the job, which finds the first search's query expired still. */
  function Crowd(query: string, other: string): seq<Step> {
    var key := CacheKey(query, false);
    AdmissionSteps(START, key) + (AdmissionSteps(START, other) + [ListStale([key]), Ask])
  }

  /** The run in which three queries are fetched at once, two of them one and the same. */
  lemma JobFetchesAgain(query: string, other: string)
    requires !EndsWith(query, EDITIONS) && other != CacheKey(query, false)
    ensures Runs(START, Crowd(query, other))
    ensures var s := After(START, Crowd(query, other)); |Fetches(s)| == SLOTS + 1 && JobDoubles(s)
  {
    hide Runs, After, ParseCacheKey;
    var key := CacheKey(query, false);
    CacheKeyRoundTrip(query, false);
    AdmissionRuns(START, key);
    var one := After(START, AdmissionSteps(START, key));
    AdmissionRuns(one, other);
    var two := After(one, AdmissionSteps(one, other));
    var listed := two.(job := Listed([key]));
    RunNothing(Apply(listed, Ask));
    Leading(listed, Ask, []);
    assert [Ask] + [] == [Ask];
    Leading(two, ListStale([key]), [Ask]);
    assert [ListStale([key])] + [Ask] == [ListStale([key]), Ask];
    RunsOn(one, AdmissionSteps(one, other), [ListStale([key]), Ask]);
    RunsOn(START, AdmissionSteps(START, key), AdmissionSteps(one, other) + [ListStale([key]), Ask]);
    hide Apply, Enabled;
    TwoAndTheJob(After(START, Crowd(query, other)));
  }

  lemma TwoAndTheJob(s: State)
    requires s.live.Keys == {0, 1} && s.live[0].Fetching? && s.live[1].Fetching?
    requires s.job.Asking? && s.job.key == s.live[0].key
    ensures |Fetches(s)| == SLOTS + 1 && JobDoubles(s)
  {
    assert Fetchers(s) == {0, 1};
    assert 0 in Fetchers(s);
    FetchesCounted(s);
  }

  /** A worker giving back its slot never waits for one, and no channel is closed twice. */
  lemma NothingStuck(steps: seq<Step>, id: nat)
    requires Runs(START, steps)
    ensures var s := After(START, steps);
            && (id in s.live && s.live[id].Fetching? ==> Enabled(s, Release(id)))
            && (id in s.live && s.live[id].Released? ==> s.live[id].done !in s.closed)
            && (s.admission.Refused? ==> s.admission.done !in s.closed)
  {
    hide Runs, After;
    StartInv();
    RunKeepsInv(START, steps);
    var s := After(START, steps);
    if id in s.live && s.live[id].Fetching? {
      assert id in Fetchers(s);
    }
    if id in s.live && s.live[id].Released? {
      assert WorkerOwns(s, id, s.live[id].key);
    }
    if s.admission.Refused? {
      assert CallerOwns(s, s.admission.key);
    }
  }

  /** The steps by which a worker that owns a key lets it go. */
  function LetGo(s: State, id: nat): seq<Step>
    requires id in s.live
  {
    if s.live[id].Fetching? then [Release(id), Unmark(id)] else [Unmark(id)]
  }

  lemma WorkerLetsGo(s: State, id: nat, key: string)
    requires Inv(s) && WorkerOwns(s, id, key)
    ensures Runs(s, LetGo(s, id)) && key !in After(s, LetGo(s, id)).refreshing
  {
    var steps := LetGo(s, id);
    if s.live[id].Fetching? {
      assert id in Fetchers(s);
      var t := Apply(s, Release(id));
      assert steps[1..] == [Unmark(id)] && [Unmark(id)][1..] == [];
      assert Runs(t, [Unmark(id)]);
      assert After(s, steps) == After(t, [Unmark(id)]) == Apply(t, Unmark(id));
    } else {
      assert steps[1..] == [];
    }
  }

  /** The steps by which the owner of a marked key, the caller inside or a worker, lets it go. */
  ghost function Freeing(s: State, key: string): seq<Step>
    requires Inv(s) && key in s.refreshing
  {
    if !CallerOwns(s, key) then var id :| WorkerOwns(s, id, key); LetGo(s, id)
    else if s.admission.Refused? then [Drop]
    else
      var launch := [Launch, Release(s.nextWorker), Unmark(s.nextWorker)];
      if s.admission.Slotted? then launch
      else if s.slots < SLOTS then [TrySlot] + launch
      else [TrySlot, Drop]
  }

  lemma Leading(s: State, step: Step, steps: seq<Step>)
    requires Enabled(s, step) && Runs(Apply(s, step), steps)
    ensures Runs(s, [step] + steps) && After(s, [step] + steps) == After(Apply(s, step), steps)
  {
    assert ([step] + steps)[1..] == steps;
  }

  lemma SlottedLetsGo(s: State, key: string)
    requires Inv(s) && CallerOwns(s, key) && s.admission.Slotted?
    ensures var steps := [Launch, Release(s.nextWorker), Unmark(s.nextWorker)];
            Runs(s, steps) && key !in After(s, steps).refreshing
  {
    hide Inv, Runs, After;
    StepKeepsInv(s, Launch);
    var t := Apply(s, Launch);
    assert WorkerOwns(t, s.nextWorker, key);
    WorkerLetsGo(t, s.nextWorker, key);
    Leading(s, Launch, LetGo(t, s.nextWorker));
    assert [Launch] + LetGo(t, s.nextWorker) == [Launch, Release(s.nextWorker), Unmark(s.nextWorker)];
  }

  /**
   * No query is blocked for good: from every reachable state, steps of the key's one owner alone, each
   * enabled in turn, unmark it.
   */
  lemma MarkedIsFreed(steps: seq<Step>, key: string)
    requires Runs(START, steps) && key in After(START, steps).refreshing
    ensures Inv(After(START, steps))
    ensures var s := After(START, steps);
            && Runs(s, Freeing(s, key))
            && key !in After(s, Freeing(s, key)).refreshing
  {
    StartInv();
    RunKeepsInv(START, steps);
    OwnerLetsGo(After(START, steps), key);
  }

  lemma OwnerLetsGo(s: State, key: string)
    requires Inv(s) && key in s.refreshing
    ensures Runs(s, Freeing(s, key)) && key !in After(s, Freeing(s, key)).refreshing
  {
    hide Inv, Runs, After;
    if CallerOwns(s, key) {
      if s.admission.Refused? {
        DropFrees(s, key);
      } else if s.admission.Slotted? {
        SlottedLetsGo(s, key);
      } else {
        StepKeepsInv(s, TrySlot);
        var t := Apply(s, TrySlot);
        if s.slots < SLOTS {
          SlottedLetsGo(t, key);
          Leading(s, TrySlot, [Launch, Release(s.nextWorker), Unmark(s.nextWorker)]);
        } else {
          DropFrees(t, key);
          Leading(s, TrySlot, [Drop]);
          assert [TrySlot] + [Drop] == [TrySlot, Drop];
        }
      }
    } else {
      OwnerExists(s, key);
      var id :| WorkerOwns(s, id, key) && Freeing(s, key) == LetGo(s, id);
      WorkerLetsGo(s, id, key);
    }
  }

  lemma OwnerExists(s: State, key: string)
    requires Inv(s) && key in s.refreshing && !CallerOwns(s, key)
    ensures exists id :: WorkerOwns(s, id, key) && Freeing(s, key) == LetGo(s, id)
  {
  }

  lemma DropFrees(s: State, key: string)
    requires CallerOwns(s, key) && s.admission.Refused?
    ensures Runs(s, [Drop]) && key !in After(s, [Drop]).refreshing
  {
    assert [Drop][1..] == [];
  }

  /** Once shutdown begins no worker is admitted any more: those alive only become fewer. */
  lemma {:induction false} NoneAdmittedAfterShutdown(s: State, steps: seq<Step>)
    requires Inv(s) && s.stopping && Runs(s, steps)
    ensures After(s, steps).live.Keys <= s.live.Keys && After(s, steps).stopping
    decreases |steps|
  {
    hide Inv, Runs, After;
    if steps == [] {
      RunNothing(s);
    } else {
      RunFirst(s, steps);
      StepKeepsInv(s, steps[0]);
      StoppingHasNoCaller(s);
      NoneAdmittedAfterShutdown(Apply(s, steps[0]), steps[1..]);
    }
  }

  lemma StoppingHasNoCaller(s: State)
    requires Inv(s) && s.stopping
    ensures s.admission.NoCaller?
  {
  }

  lemma RunNothing(s: State)
    ensures Runs(s, []) && After(s, []) == s
  {
  }

  lemma RunFirst(s: State, steps: seq<Step>)
    requires Runs(s, steps) && steps != []
    ensures Enabled(s, steps[0]) && Runs(Apply(s, steps[0]), steps[1..])
    ensures After(s, steps) == After(Apply(s, steps[0]), steps[1..])
  {
  }

  /**
   * The stopped channel closes only when every worker has finished, and none runs from then on: what
   * is fetched then is fetched by the job.
   */
  lemma StoppedMeansFinished(before: seq<Step>, later: seq<Step>)
    requires Runs(START, before) && After(START, before).stopped && Runs(After(START, before), later)
    ensures After(START, before).live == map[] && After(After(START, before), later).live == map[]
    ensures Fetches(After(After(START, before), later)) <= {ByJob}
  {
    hide Runs, After;
    StartInv();
    RunKeepsInv(START, before);
    var s := After(START, before);
    assert |s.live| == 0;
    NoneAdmittedAfterShutdown(s, later);
    assert After(s, later).live.Keys == {};
  }

  /** The service's shutdown does not wait for the job: it can ask after stopped is closed. */
  lemma JobAsksWhenStopped(key: string)
    ensures var steps := [BeginShutdown] + ([CloseStopped] + ([ListStale([key])] + [Ask]));
            Runs(START, steps) && After(START, steps).stopped && Fetches(After(START, steps)) == {ByJob}
  {
    hide Runs, After, Refetched;
    var stopping := Apply(START, BeginShutdown);
    var stopped := Apply(stopping, CloseStopped);
    var listed := Apply(stopped, ListStale([key]));
    RunNothing(Apply(listed, Ask));
    Leading(listed, Ask, []);
    assert [Ask] + [] == [Ask];
    Leading(stopped, ListStale([key]), [Ask]);
    Leading(stopping, CloseStopped, [ListStale([key])] + [Ask]);
    Leading(START, BeginShutdown, [CloseStopped] + ([ListStale([key])] + [Ask]));
  }
}
