/** Guarantees about whole runs. */
module ChildRuns {
  import opened Wrappers
  import opened ChildRecord
  import opened ChildLifecycle
  import opened ChildInvariant
  import opened ChildEvents
  import opened ChildShapes
  import opened ChildTheorems

  /** A goroutine keeps its identity: what it was started for, and which children were gone by then. */
  predicate SameCall(s: State, s': State, t: ThreadId) {
    t in s.threads && t in s'.threads && s'.threads[t].op == s.threads[t].op
        && s'.threads[t].before == s.threads[t].before
  }

  lemma StepSameCall(s: State, a: Action, s': State, t: ThreadId)
    requires Step(s, a) == Some(s') && t in s.threads
    ensures SameCall(s, s', t)
  {
    hide ThreadStep;
    if a.Act? {
      StepShape(s, a.tid, a.choice, s');
    }
  }

  lemma {:induction false} RunSameCall(s: State, acts: seq<Action>, s': State, t: ThreadId)
    requires Run(s, acts) == Some(s') && t in s.threads
    ensures SameCall(s, s', t)
    decreases |acts|
  {
    hide Step;
    if acts != [] {
      var before := Run(s, acts[..|acts| - 1]).value;
      RunSameCall(s, acts[..|acts| - 1], before, t);
      StepSameCall(before, acts[|acts| - 1], s', t);
    }
  }

  /** Two calls of the same thread's history: what it lost were different children, all lost since it began. */
  lemma LostAreDistinct(s: State, t: ThreadId)
    requires Inv(s) && t in s.threads && s.threads[t].pc == Finished(KeptSuspending)
    ensures |s.threads[t].lost| == EMBED_MAX_ATTEMPTS
    ensures forall c :: c in s.threads[t].lost ==> c in s.reaped && c !in s.threads[t].before
    ensures s.threads[t].lost[0] != s.threads[t].lost[1]
  {
    hide LocksOk, ChildrenOk, RecordOk, ClockOk, ReadersOk, TimedOk, PcOk, Held;
    assert HistoryOk(s, s.threads[t]);
  }

  /**
    If a server Embed or EmbedBatch call, begun in `s1`, ends with the "kept suspending" error, then
    EMBED_MAX_ATTEMPTS different children were reaped during that call, whatever else was running.
  */
  lemma KeptSuspendingLosesChildren(s0: State, pre: seq<Action>, s1: State, t: ThreadId, empty: bool, s2: State,
      acts: seq<Action>, s: State)
    requires Init(s0) && Run(s0, pre) == Some(s1)
    requires Step(s1, Begin(t, Embedding(empty))) == Some(s2) && Run(s2, acts) == Some(s)
    requires t in s.threads && s.threads[t].pc == Finished(KeptSuspending)
    ensures exists lost: set<ChildId> :: |lost| == EMBED_MAX_ATTEMPTS && lost <= s.reaped && lost !! s1.reaped
  {
    hide Inv, Run, Init;
    InitHolds(s0);
    RunKeeps(s0, pre, s1);
    StepKeeps(s1, Begin(t, Embedding(empty)), s2);
    RunKeeps(s2, acts, s);
    RunSameCall(s2, acts, s, t);
    LostAreDistinct(s, t);
    var l := s.threads[t].lost;
    assert l[0] in l && l[1] in l;
    var lost := {l[0], l[1]};
    assert |lost| == EMBED_MAX_ATTEMPTS && lost <= s.reaped && lost !! s1.reaped;
  }

  // ----- how long a drain waits -----

  /** The clock does not pass the deadline of a request that holds the read lock. */
  predicate Timely(s: State, a: Action) {
    a.Tick? ==> forall t :: t in s.readers && t in s.threads ==>
        s.now + a.elapsed <= s.threads[t].rlockAt + EMBED_REQUEST_TIMEOUT
  }

  predicate TimelyRun(s: State, acts: seq<Action>) {
    acts == []
    || (TimelyRun(s, acts[..|acts| - 1])
        && var r := Run(s, acts[..|acts| - 1]);
        r.Some? && Timely(r.value, acts[|acts| - 1]))
  }

  predicate ReadersInTime(s: State) {
    forall t :: t in s.readers && t in s.threads ==> s.now <= s.threads[t].rlockAt + EMBED_REQUEST_TIMEOUT
  }

  lemma StepInTime(s: State, a: Action, s': State)
    requires s.readers <= s.threads.Keys && ReadersInTime(s) && Timely(s, a) && Step(s, a) == Some(s')
    ensures ReadersInTime(s')
  {
    hide ThreadStep, StopWindow, SectionResult, KidsMove;
    if a.Act? {
      StepShape(s, a.tid, a.choice, s');
    }
  }

  lemma ReadersAreThreads(s: State)
    requires Inv(s)
    ensures s.readers <= s.threads.Keys
  {
    hide ThreadLocks, ChildrenOk, RecordOk, ThreadsOk, ClockOk, ReadersOk, TimedOk;
  }

  lemma {:induction false} RunInTime(s0: State, acts: seq<Action>, s: State)
    requires Init(s0) && TimelyRun(s0, acts) && Run(s0, acts) == Some(s)
    ensures ReadersInTime(s)
  {
    hide Step, Inv;
    if acts != [] {
      var front := acts[..|acts| - 1];
      var before := Run(s0, front).value;
      RunInTime(s0, front, before);
      InitHolds(s0);
      RunKeeps(s0, front, before);
      ReadersAreThreads(before);
      StepInTime(before, acts[|acts| - 1], s);
    }
  }

  /**
    In every run in which requests end by their timeout, a drain that is still waiting has waited no longer
    than one such timeout, however many requests there were and whoever arrived since.
  */
  lemma DrainWaitsOneTimeout(s0: State, acts: seq<Action>, s: State)
    requires Init(s0) && TimelyRun(s0, acts) && Run(s0, acts) == Some(s)
    requires s.writer.Some? && !s.drained && s.readers != {}
    ensures s.now <= s.pendingSince + EMBED_REQUEST_TIMEOUT
  {
    hide Run, TimelyRun, Init;
    assert Reachable(s);
    RunInTime(s0, acts, s);
    DrainWaitsForEarlierReaders(s);
    var t :| t in s.readers;
    assert t in s.threads;
  }

  /** One more step keeps a state reachable. */
  lemma ReachStep(s: State, a: Action, s': State)
    requires Reachable(s) && Step(s, a) == Some(s')
    ensures Reachable(s')
  {
    hide Step, Init;
    var s0: State, acts: seq<Action> :| Init(s0) && Run(s0, acts) == Some(s);
    assert (acts + [a])[..|acts + [a]| - 1] == acts;
    assert Run(s0, acts + [a]) == Some(s');
  }
}
