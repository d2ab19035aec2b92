/**
  The two kills that do not wait for embeds: a start made by EnsureStarted that never becomes healthy is
  cleaned up while another request may already be talking to the child; and a child dies with the daemon
  context, which the ownership watchdog cancels without taking any lock.
*/
module ChildSevered {
  import opened Wrappers
  import opened ChildRecord
  import opened ChildLifecycle
  import opened ChildTheorems
  import opened ChildRuns

  lemma Take(s: State, a: Action) returns (s': State)
    requires Reachable(s) && Step(s, a).Some?
    ensures Reachable(s') && Step(s, a) == Some(s')
  {
    hide Reachable, Step;
    s' := Step(s, a).value;
    ReachStep(s, a, s');
  }

  /** Started once, no child, nobody holding anything. */
  predicate Quiet(s: State) {
    s.ctxSet && !s.ctxDone && s.life == None && s.writer == None && s.readers == {} && s.rec.cmd == None
  }

  predicate At(s: State, t: ThreadId, pc: Pc) {
    t in s.threads && s.threads[t].pc == pc
  }

  lemma NothingYet(s: State)
    requires Init(s)
    ensures Reachable(s)
  {
    assert Run(s, []) == Some(s);
  }

  /** A request that has begun in `s` and made no attempt before. */
  function Asking(s: State, pc: Pc, seen: Option<ChildId>): Thread {
    Thread(Embedding(false), pc, 0, seen, [], s.reaped, 0, None, None, false)
  }

  /** A request takes lifecycleMu, and is about to look at `cmd`. */
  lemma Enter(s: State, t: ThreadId) returns (s': State)
    requires Reachable(s) && s.ctxSet && !s.ctxDone && s.life == None && t !in s.threads
    ensures Reachable(s') && s' == Put(s.(life := Some(t)), t, Asking(s, ReadCmd, None))
  {
    hide Reachable, ProbeStep, StartStep, StopStep, EmbedStep, StopWindow, Listening;
    s' := Take(s, Begin(t, Embedding(false)));
    s' := Take(s', Act(t, Proceed));
    s' := Take(s', Act(t, Proceed));
    assert s'.threads == s.threads[t := Asking(s, ReadCmd, None)];
  }

  /** It finds no child, and will start one. */
  lemma FindNoChild(s: State, t: ThreadId) returns (s': State)
    requires Reachable(s) && Quiet(s) && t !in s.threads
    ensures Reachable(s') && s' == Put(s.(life := Some(t)), t, Asking(s, Spawn(ByEnsure), None))
  {
    hide Reachable, LockStep, ProbeStep, StartStep, StopStep, EmbedStep, StopWindow, Listening;
    s' := Enter(s, t);
    s' := Take(s', Act(t, Proceed));
    assert s'.threads == s.threads[t := Asking(s, Spawn(ByEnsure), None)];
  }

  lemma ExecChild(s: State, t: ThreadId, from: StartCaller) returns (s': State)
    requires Reachable(s) && At(s, t, Spawn(from)) && !s.ctxDone
    ensures Reachable(s') && s' == Goto(s, t, WaitPort(from, |s.kids|)).(
                                     rec := Published(s.rec, |s.kids|), lastPublished := Some(|s.kids|),
                                     kids := s.kids + [Child(None, false, false, false, false, false)])
  {
    hide Reachable, LockStep, EnsureStep, ProbeStep, StopStep, EmbedStep, StopWindow, Listening, Published;
    s' := Take(s, Act(t, Proceed));
    s' := Take(s', Act(t, Proceed));
    assert s'.threads == s.threads[t := s.threads[t].(pc := WaitPort(from, |s.kids|))];
  }

  lemma LearnPort(s: State, t: ThreadId, from: StartCaller, c: ChildId, p: nat) returns (s': State)
    requires Reachable(s) && At(s, t, WaitPort(from, c)) && c < |s.kids| && !s.kids[c].scanEnd
              && s.kids[c].delivered == None
    ensures Reachable(s') && s' == Goto(s, t, ProbeRead(Poll(from, c))).(
                                     rec := s.rec.(port := p), kids := s.kids[c := s.kids[c].(delivered := Some(p))])
  {
    hide Reachable, LockStep, EnsureStep, ProbeStep, StopStep, EmbedStep, StopWindow, Listening;
    s' := Take(s, Announce(c, p));
    s' := Take(s', Act(t, Proceed));
    s' := Take(s', Act(t, Proceed));
    assert s'.threads == s.threads[t := s.threads[t].(pc := ProbeRead(Poll(from, c)))];
  }

  /** The new child prints its port, and is about to be polled. */
  lemma StartChild(s: State, t: ThreadId, from: StartCaller, p: nat) returns (s': State)
    requires Reachable(s) && At(s, t, Spawn(from)) && !s.ctxDone
    ensures Reachable(s') && At(s', t, ProbeRead(Poll(from, |s.kids|)))
    ensures s'.threads == s.threads[t := s.threads[t].(pc := s'.threads[t].pc)]
    ensures s'.rec == Published(s.rec, |s.kids|).(port := p) && s'.lastPublished == Some(|s.kids|)
    ensures s'.kids == s.kids + [Child(Some(p), false, false, false, false, false)]
    ensures s' == s.(rec := s'.rec, kids := s'.kids, lastPublished := s'.lastPublished, threads := s'.threads)
  {
    hide Reachable, Step;
    var c := |s.kids|;
    s' := ExecChild(s, t, from);
    s' := LearnPort(s', t, from, c, p);
  }

  /** A poll that the child answers, or not. */
  lemma PollOnce(s: State, t: ThreadId, from: StartCaller, c: ChildId, hit: bool) returns (s': State)
    requires Reachable(s) && At(s, t, ProbeRead(Poll(from, c))) && s.rec.port > 0
    requires hit ==> c < |s.kids| && !s.kids[c].exited && s.kids[c].delivered == Some(s.rec.port)
    ensures Reachable(s') && s' == Goto(s, t, if hit then ProbeStamp(Poll(from, c)) else PollWait(from, c))
  {
    hide Reachable, LockStep, EnsureStep, StartStep, StopStep, EmbedStep, StopWindow;
    s' := Take(s, Act(t, Proceed));
    if hit {
      assert Listening(s', s.rec.port);
    }
    s' := Take(s', Act(t, if hit then Proceed else Refuse));
    assert s'.threads == s.threads[t := s.threads[t].(pc := s'.threads[t].pc)];
  }

  /** Start has taken lifecycleMu, and is about to spawn. */
  const STARTING := State(INITIAL_RECORD, true, false, Some(0), None, None, false, {}, Some(0), [], {}, 1, 0,
                          map[0 := Thread(Starting, Spawn(ByStart), 0, None, [], {}, 0, None, None, false)],
                          0, None, [], 0)

  /** Start has returned nil: from here on the daemon hands the backend to its server. */
  const STARTED := State(Published(INITIAL_RECORD, 0).(port := 5000), true, false, Some(0), None, None, false, {}, None,
                         [Child(Some(5000), false, false, false, true, false)], {}, 1, 1,
                         map[0 := Thread(Starting, Finished(Started(true)), 0, Some(0), [], {}, 0, None, None, false)],
                         0, Some(0), [], 0)

  lemma FirstStart()
    ensures Reachable(STARTED)
  {
    hide Reachable, Step;
    BeginFirstStart();
    var s := StartChild(STARTING, 0, ByStart, 5000);
    s := PollOnce(s, 0, ByStart, 0, true);
    s := EndFirstStart(s);
    assert s.threads == STARTED.threads && s.kids == STARTED.kids;
  }

  lemma BeginFirstStart()
    ensures Reachable(STARTING)
  {
    hide Reachable, EnsureStep, ProbeStep, StartStep, StopStep, EmbedStep, Listening;
    var s := STARTING.(ctxSet := false, starter := None, life := None, threads := map[]);
    assert Reachable(s) by { NothingYet(s); }
    s := Take(s, Begin(0, Starting));
    s := Take(s, Act(0, Proceed));
    assert s.threads == STARTING.threads;
  }

  lemma EndFirstStart(s: State) returns (s': State)
    requires Reachable(s) && At(s, 0, ProbeStamp(Poll(ByStart, 0))) && |s.kids| == 1
    ensures Reachable(s') && s' == Put(s.(life := None, kids := [s.kids[0].(ready := true)], lastAlive := s.now), 0,
                                       s.threads[0].(seen := Some(0), pc := Finished(Started(true))))
  {
    hide Reachable, EnsureStep, StartStep, StopStep, EmbedStep, StopWindow, Listening;
    s' := Take(s, Act(0, Proceed));
    s' := Take(s', Act(0, Proceed));
    assert s'.threads == s.threads[0 := s.threads[0].(seen := Some(0), pc := Finished(Started(true)))];
  }

  /** A request finds the child healthy, and goes on to ask for the read lock. */
  lemma FindHealthyChild(s: State, t: ThreadId, p: nat) returns (s': State)
    requires Reachable(s) && s.ctxSet && !s.ctxDone && s.life == None && t !in s.threads
    requires s.rec.cmd.Some? && s.rec.port == p > 0 && Listening(s, p)
    ensures Reachable(s') && s' == Put(s, t, Asking(s, WantRead, s.rec.cmd))
  {
    hide Reachable, Step, Listening;
    s' := Enter(s, t);
    StillListening(s, s', p);
    s' := QuickProbe(s', t, p);
    s' := LeaveHealthy(s', t);
    assert s'.threads == s.threads[t := Asking(s, WantRead, s.rec.cmd)];
  }

  lemma StillListening(s: State, s': State, p: nat)
    requires Listening(s, p) && s'.kids == s.kids
    ensures Listening(s', p)
  {
  }

  lemma QuickProbe(s: State, t: ThreadId, p: nat) returns (s': State)
    requires Reachable(s) && At(s, t, ReadCmd) && s.rec.cmd.Some? && s.rec.port == p > 0 && Listening(s, p)
    ensures Reachable(s') && s' == Put(s, t, s.threads[t].(seen := s.rec.cmd, pc := DropLife(EndEnsure(true))))
  {
    hide Reachable, LockStep, StartStep, StopStep, EmbedStep, StopWindow;
    s' := Take(s, Act(t, Proceed));
    s' := Take(s', Act(t, Proceed));
    StillListening(s, s', p);
    s' := Take(s', Act(t, Proceed));
    assert s'.threads == s.threads[t := s.threads[t].(seen := s.rec.cmd, pc := DropLife(EndEnsure(true)))];
  }

  lemma LeaveHealthy(s: State, t: ThreadId) returns (s': State)
    requires Reachable(s) && At(s, t, DropLife(EndEnsure(true))) && s.threads[t].op == Embedding(false)
    ensures Reachable(s') && s' == Goto(s.(life := None), t, WantRead)
  {
    hide Reachable, EnsureStep, ProbeStep, StartStep, StopStep, EmbedStep, StopWindow, Listening;
    s' := Take(s, Act(t, Proceed));
  }

  /** The published child dies, and its watcher clears the record. */
  lemma ChildDies(s: State, c: ChildId) returns (s': State)
    requires Reachable(s) && s.rec.cmd == Some(c) && s.lastPublished == Some(c) && c < |s.kids| && !s.kids[c].exited
              && c !in s.reaped
    ensures Reachable(s') && s'.rec.cmd == None && |s'.kids| == |s.kids|
    ensures s' == s.(rec := s'.rec, kids := s'.kids, reaped := s'.reaped)
  {
    hide Reachable, LockStep, EnsureStep, ProbeStep, StartStep, StopStep, EmbedStep, StopWindow, Listening;
    s' := Take(s, Exit(c));
    s' := Take(s', Reap(c));
  }

  lemma TakeRead(s: State, t: ThreadId) returns (s': State)
    requires Reachable(s) && At(s, t, WantRead) && s.writer == None
    ensures Reachable(s')
              && s' == Put(s.(readers := s.readers + {t}), t, s.threads[t].(rlockAt := s.now, pc := ReadPort))
  {
    hide Reachable, EnsureStep, ProbeStep, StartStep, StopStep, EmbedStep, StopWindow, Listening;
    s' := Take(s, Act(t, Proceed));
  }

  lemma UsePort(s: State, t: ThreadId, p: nat) returns (s': State)
    requires Reachable(s) && At(s, t, ReadPort) && s.rec.port == p > 0
    ensures Reachable(s') && s' == Goto(s, t, Calling(p))
  {
    hide Reachable, LockStep, EnsureStep, ProbeStep, StartStep, StopStep, StopWindow, Listening;
    s' := Take(s, Act(t, Proceed));
  }

  lemma ReadAndCall(s: State, t: ThreadId, p: nat) returns (s': State)
    requires Reachable(s) && At(s, t, WantRead) && s.writer == None && s.rec.port == p > 0
    ensures Reachable(s')
              && s' == Put(s.(readers := s.readers + {t}), t, s.threads[t].(rlockAt := s.now, pc := Calling(p)))
  {
    hide Reachable, Step;
    s' := TakeRead(s, t);
    s' := UsePort(s', t, p);
    assert s'.threads == s.threads[t := s.threads[t].(rlockAt := s.now, pc := Calling(p))];
  }

  lemma SignalAtDeadline(s: State, t: ThreadId, c: ChildId) returns (s': State)
    requires Reachable(s) && At(s, t, PollWait(ByEnsure, c)) && c < |s.kids|
    requires s.rec.cmd == Some(c) && s.rec.cmdDone == Some(c)
    ensures Reachable(s') && s' == Goto(s, t, Signal(ForCleanup(ByEnsure), c, c)).(rec := StopMarked(s.rec))
  {
    hide Reachable, LockStep, EnsureStep, ProbeStep, EmbedStep, StopWindow, Listening;
    s' := Take(s, Act(t, Expire));
    s' := Take(s', Act(t, Proceed));
    assert s'.threads == s.threads[t := s.threads[t].(pc := s'.threads[t].pc)];
  }

  /** No poll succeeds before the deadline, so the start signals its child. */
  lemma GiveUp(s: State, t: ThreadId, c: ChildId) returns (s': State)
    requires Reachable(s) && At(s, t, ProbeRead(Poll(ByEnsure, c))) && c < |s.kids|
    requires s.rec.port > 0 && s.rec.cmd == Some(c) && s.rec.cmdDone == Some(c)
    ensures Reachable(s') && At(s', t, Signal(ForCleanup(ByEnsure), c, c)) && s'.kids == s.kids
    ensures forall u :: u in s.threads && u != t ==> u in s'.threads && s'.threads[u] == s.threads[u]
  {
    hide Reachable, Step;
    s' := PollOnce(s, t, ByEnsure, c, false);
    s' := SignalAtDeadline(s', t, c);
  }

  lemma ListensAt(s: State, c: ChildId, p: nat)
    requires c < |s.kids| && !s.kids[c].exited && s.kids[c].delivered == Some(p)
    ensures Listening(s, p)
  {
  }

  /** A request has passed its EnsureStarted, and then the child it found has died. */
  lemma OneRequest() returns (s: State)
    ensures Reachable(s) && Quiet(s) && s.threads.Keys == {0, 1}
    ensures At(s, 0, Finished(Started(true))) && At(s, 1, WantRead) && |s.kids| == 1
  {
    hide Reachable, Step, Listening;
    FirstStart();
    s := STARTED;
    ListensAt(s, 0, 5000);
    s := FindHealthyChild(s, 1, 5000);
    s := ChildDies(s, 0);
  }

  /** While it waits for the read lock, another request is starting a new child. */
  lemma TwoRequests() returns (s: State)
    ensures Reachable(s) && At(s, 0, Finished(Started(true))) && At(s, 1, WantRead)
              && At(s, 2, ProbeRead(Poll(ByEnsure, 1)))
    ensures |s.kids| == 2 && !s.kids[1].exited && s.kids[1].delivered == Some(6000)
    ensures s.rec.port == 6000 && s.rec.cmd == Some(1) && s.rec.cmdDone == Some(1) && s.writer == None
  {
    hide Reachable, Step, Listening;
    s := OneRequest();
    s := FindNoChild(s, 2);
    s := StartChild(s, 2, ByEnsure, 6000);
  }

  /**
    NoEmbedSevered needs AfterDrain: a failed start reached from EnsureStarted can signal a child while
    another request, which was waiting for the read lock, has a call to that very child outstanding. In the
    run shown both requests come after a Start that returned nil.
  */
  lemma CleanupCanSeverAnEmbed()
    ensures exists s: State, t: ThreadId, u: ThreadId, c: ChildId, p: nat ::
              && Reachable(s) && At(s, 0, Finished(Started(true))) && At(s, t, Signal(ForCleanup(ByEnsure), c, c))
              && At(s, u, Calling(p)) && c < |s.kids| && !s.kids[c].exited && s.kids[c].delivered == Some(p)
  {
    hide Reachable, Step;
    var s := TwoRequests();
    s := ReadAndCall(s, 1, 6000);
    s := GiveUp(s, 2, 1);
    assert At(s, 0, Finished(Started(true))) && At(s, 1, Calling(6000));
  }

  /** Nobody is inside a stopLocked that has signalled. */
  predicate NobodyTerminates(s: State) {
    forall t :: t in s.threads ==> !Terminating(s.threads[t].pc)
  }

  /** One request is calling the child that Start left running. */
  lemma OneCall() returns (s: State)
    ensures Reachable(s) && s.threads.Keys == {0, 1} && At(s, 0, Finished(Started(true))) && At(s, 1, Calling(5000))
    ensures 1 in s.readers && s.kids == [Child(Some(5000), false, false, false, true, false)]
  {
    hide Reachable, Step, Listening;
    FirstStart();
    s := STARTED;
    ListensAt(s, 0, 5000);
    s := FindHealthyChild(s, 1, 5000);
    assert s.threads.Keys == {0, 1};
    s := ReadAndCall(s, 1, 5000);
  }

  lemma ContextEnds(s: State, c: ChildId) returns (s': State)
    requires Reachable(s) && c < |s.kids| && !s.kids[c].exited
    ensures Reachable(s') && s' == s.(ctxDone := true) && Step(s', ContextKill(c)).Some?
  {
    hide Reachable, ThreadStep, BeginStep, ReapStep;
    s' := Take(s, CancelContext);
  }

  /**
    The end of the daemon context kills the child a request is calling, though nobody is terminating it and
    the request holds the read lock.
  */
  lemma ContextKillCanSeverAnEmbed()
    ensures exists s: State, u: ThreadId, c: ChildId, p: nat ::
              && Reachable(s) && At(s, 0, Finished(Started(true))) && At(s, u, Calling(p)) && u in s.readers
              && c < |s.kids| && !s.kids[c].exited && s.kids[c].delivered == Some(p)
              && NobodyTerminates(s) && Step(s, ContextKill(c)).Some?
  {
    hide Reachable, Step;
    var s := OneCall();
    s := ContextEnds(s, 0);
    assert At(s, 0, Finished(Started(true))) && At(s, 1, Calling(5000)) && NobodyTerminates(s);
  }
}
