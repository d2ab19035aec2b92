/** No deadlock: some goroutine, some watcher or some child always has a next step. */
module ChildProgress {
  import opened Wrappers
  import opened ChildRecord
  import opened ChildLifecycle
  import opened ChildInvariant
  import opened ChildFrames
  import opened ChildEvents

  predicate CanStep(s: State, t: ThreadId) {
    t in s.threads && (ThreadStep(s, t, Proceed).Some? || ThreadStep(s, t, Refuse).Some?
        || ThreadStep(s, t, Expire).Some?)
  }

  /** A watcher has its section to run, or its channel to close. */
  predicate WatcherCanStep(s: State, c: ChildId) {
    ReapStep(s, c).Some? || ChildStep(s, CloseDone(c)).Some?
  }

  /**
    `t` waits for a running child: for the port of a child that has announced none, has not closed its
    log and whose context is alive; or for the exit of one that closed its log or was killed.
  */
  predicate AwaitsChild(s: State, t: ThreadId) {
    && t in s.threads
    && match s.threads[t].pc
       case WaitPort(_, c) => c < |s.kids| && s.kids[c].delivered == None && !s.kids[c].scanEnd && !s.ctxDone
       case AwaitDone(_, c) => c < |s.kids| && !s.kids[c].exited
       case KillWait(_, c, d) => d == c && c < |s.kids| && !s.kids[c].exited
       case _ => false
  }

  /** `t` waits for the watcher of its child, which can step. */
  predicate AwaitsWatcher(s: State, t: ThreadId) {
    && t in s.threads
    && match s.threads[t].pc
       case WaitPort(_, c) => WatcherCanStep(s, c)
       case AwaitDone(_, c) => WatcherCanStep(s, c)
       case KillWait(_, c, _) => WatcherCanStep(s, c)
       case _ => false
  }

  /** Waiting for a lock, for readers to leave, or for a child. */
  predicate Blocked(s: State, pc: Pc) {
    match pc
    case WantLife(_) => s.life != None
    case WantRestart => s.restart != None
    case WantWriter(_) => s.writer != None
    case WantRead => s.writer != None
    case Draining(_) => s.readers != {}
    case WaitPort(_, c) => c >= |s.kids| || (s.kids[c].delivered == None && !s.kids[c].scanEnd && !s.ctxDone)
    case AwaitDone(_, c) => c >= |s.kids| || !s.kids[c].done
    case KillWait(_, _, d) => d >= |s.kids| || !s.kids[d].done
    case _ => false
  }

  /** Lock waits and local steps. */
  lemma UnblockedEmbedSteps(s: State, t: ThreadId)
    requires Inv(s) && t in s.threads && !Blocked(s, s.threads[t].pc)
    requires LockPc(s.threads[t].pc) || EmbedPc(s.threads[t].pc)
    ensures CanStep(s, t)
  {
    hide Inv, EnsureStep, ProbeStep, StartStep, StopStep;
    if LockPc(s.threads[t].pc) {
      hide EmbedStep;
      assert LockStep(s, t).Some?;
      assert ThreadStep(s, t, Proceed).Some?;
    } else {
      hide LockStep;
      assert EmbedStep(s, t, Refuse).Some?;
      assert ThreadStep(s, t, Refuse).Some?;
    }
  }

  predicate LockPc(pc: Pc) {
    pc.WantLife? || pc.WantRestart? || pc.WantWriter? || pc.Draining? || pc.DropLife? || pc.DropWriter?
        || pc.DropRestart? || pc.WantRead?
  }

  predicate EmbedPc(pc: Pc) {
    pc.ReadPort? || pc.Calling? || pc.CallStamp? || pc.DropRead? || pc.ServeRead? || pc.ServeGrace?
  }

  predicate EnsurePc(pc: Pc) {
    pc.CheckContext? || pc.ReadCmd? || pc.QuickGrace? || pc.RestartGrace? || pc.RestartReadCmd?
  }

  predicate ProbePc(pc: Pc) {
    pc.ProbeRead? || pc.ProbeWait? || pc.ProbeStamp?
  }

  lemma UnblockedProbeSteps(s: State, t: ThreadId)
    requires Inv(s) && t in s.threads && (EnsurePc(s.threads[t].pc) || ProbePc(s.threads[t].pc))
    ensures CanStep(s, t)
  {
    hide Inv, LockStep, StartStep, StopStep, EmbedStep, HistoryOk, Held, TimedThread;
    OwnFacts(s, t);
    if EnsurePc(s.threads[t].pc) {
      hide ProbeStep;
      assert EnsureStep(s, t).Some?;
      assert ThreadStep(s, t, Proceed).Some?;
    } else {
      hide EnsureStep;
      assert ProbeStep(s, t, Refuse).Some?;
      assert ThreadStep(s, t, Refuse).Some?;
    }
  }

  predicate StartPc(pc: Pc) {
    pc.Spawn? || pc.PublishChild? || pc.WaitPort? || pc.WritePort? || pc.PollWait? || pc.AwaitDone?
  }

  lemma UnblockedStartSteps(s: State, t: ThreadId)
    requires Inv(s) && t in s.threads && !Blocked(s, s.threads[t].pc) && StartPc(s.threads[t].pc)
    ensures CanStep(s, t)
  {
    hide Inv, LockStep, ProbeStep, EnsureStep, StopStep, EmbedStep, HistoryOk, Held, TimedThread;
    OwnFacts(s, t);
    assert StartStep(s, t, Proceed).Some? || StartStep(s, t, Refuse).Some? || StartStep(s, t, Expire).Some?;
  }

  predicate StopPc(pc: Pc) {
    || pc.StopReadCmd? || pc.StopBegin? || pc.Signal? || pc.StopWait? || pc.KillWait? || pc.StopEnd? || pc.SuspendMark?
  }

  lemma UnblockedStopSteps(s: State, t: ThreadId)
    requires Inv(s) && t in s.threads && !Blocked(s, s.threads[t].pc) && StopPc(s.threads[t].pc)
    ensures CanStep(s, t)
  {
    hide Inv, LockStep, ProbeStep, EnsureStep, StartStep, EmbedStep, Held;
    DoneChannelSet(s);
    assert StopStep(s, t, Expire).Some?;
  }

  lemma DoneChannelSet(s: State)
    requires Inv(s)
    ensures s.rec.cmd.Some? ==> s.rec.cmdDone.Some?
  {
    hide LocksOk, ChildrenOk, ThreadsOk, ClockOk, ReadersOk, TimedOk, Held, StopWindow;
  }

  lemma UnblockedSteps(s: State, t: ThreadId)
    requires Inv(s) && t in s.threads && !Blocked(s, s.threads[t].pc) && !s.threads[t].pc.Finished?
    ensures CanStep(s, t)
  {
    hide Inv, ThreadStep, CanStep, Blocked;
    var pc := s.threads[t].pc;
    if StartPc(pc) {
      UnblockedStartSteps(s, t);
    } else if StopPc(pc) {
      UnblockedStopSteps(s, t);
    } else if EnsurePc(pc) || ProbePc(pc) {
      UnblockedProbeSteps(s, t);
    } else {
      UnblockedEmbedSteps(s, t);
    }
  }

  // ----- who is never blocked by whom -----

  lemma LifeHolderBlocked(s: State, pc: Pc)
    requires HoldsLife(pc) && Blocked(s, pc)
    ensures pc.WaitPort? || pc.AwaitDone? || pc.KillWait?
    ensures Unpublished(pc) == None
  {
  }

  lemma HoldersAreUnfinished(s: State, pc: Pc)
    ensures HoldsLife(pc) || HoldsWriter(pc) || HoldsRestart(pc) || HoldsRead(pc) ==> !pc.Finished?
    ensures HoldsRead(pc) ==> !Blocked(s, pc)
  {
  }

  /** The holder of lifecycleMu waits only for a child; then the child, its watcher, or nobody is next. */
  lemma LifeHolderProgress(s: State, t: ThreadId)
    requires Inv(s) && s.life == Some(t) && t in s.threads
    ensures CanStep(s, t) || AwaitsChild(s, t) || AwaitsWatcher(s, t)
  {
    hide Inv, HistoryOk, TimedThread, CanStep, Held, ReapStep, ChildStep;
    OwnFacts(s, t);
    var pc := s.threads[t].pc;
    HoldersAreUnfinished(s, pc);
    if Blocked(s, pc) {
      LifeHolderBlocked(s, pc);
      if !AwaitsChild(s, t) {
        assert WatcherCanStep(s, pc.child) by { ExitedChildProgress(s, t, pc.child); }
      }
    } else {
      UnblockedSteps(s, t);
    }
  }

  lemma ExitedChildProgress(s: State, t: ThreadId, c: ChildId)
    requires Inv(s) && s.life == Some(t) && t in s.threads && Unpublished(s.threads[t].pc) == None
    requires c < |s.kids| && s.kids[c].exited && !s.kids[c].done
    ensures WatcherCanStep(s, c)
  {
    hide LocksOk, ThreadsOk, ClockOk, ReadersOk, TimedOk, Held, StopWindow;
  }

  // ----- lock waits never close a cycle -----

  /** `t` waits for something `h` holds: a lock, or, draining, the read lock. */
  predicate Waits(s: State, t: ThreadId, h: ThreadId) {
    && t in s.threads
    && match s.threads[t].pc
       case WantRestart => s.restart == Some(h)
       case WantWriter(_) => s.writer == Some(h)
       case WantRead => s.writer == Some(h)
       case Draining(_) => h in s.readers
       case WantLife(_) => s.life == Some(h)
       case _ => false
  }

  /** How far a waiter is from the end of the lock order restartMu, inflightMu, lifecycleMu. */
  function Rank(pc: Pc): nat {
    match pc
    case WantRestart => 4
    case WantWriter(_) => 3
    case WantRead => 3
    case Draining(_) => 2
    case WantLife(_) => 1
    case _ => 0
  }

  lemma RankOfLifeHolder(pc: Pc)
    requires HoldsLife(pc)
    ensures Rank(pc) == 0
  {
  }

  lemma RankOfReader(pc: Pc)
    requires HoldsRead(pc)
    ensures Rank(pc) == 0
  {
  }

  lemma RankOfWriter(pc: Pc)
    requires HoldsWriter(pc)
    ensures Rank(pc) <= 2 && (pc.Draining? ==> !HoldsDrained(pc))
  {
  }

  lemma RankOfRestarter(pc: Pc)
    requires HoldsRestart(pc)
    ensures Rank(pc) <= 3
  {
  }

  /** Whoever is waited for is unfinished, and further along the lock order than whoever waits. */
  lemma LockOrder(s: State, t: ThreadId, h: ThreadId)
    requires Reachable(s) && Waits(s, t, h)
    ensures h in s.threads && !s.threads[h].pc.Finished? && Rank(s.threads[h].pc) < Rank(s.threads[t].pc)
  {
    hide Reachable, Inv, Held, HistoryOk, PcOk, TimedThread;
    ReachableInv(s);
    HolderFacts(s);
    OwnFacts(s, h);
    var pc := s.threads[h].pc;
    HoldersAreUnfinished(s, pc);
    match s.threads[t].pc
    case WantRestart => RankOfRestarter(pc);
    case WantWriter(_) => RankOfWriter(pc);
    case WantRead => RankOfWriter(pc);
    case Draining(_) => RankOfReader(pc);
    case WantLife(_) => RankOfLifeHolder(pc);
  }

  /** Every unfinished goroutine can step, waits for a child or its watcher, or waits for another goroutine. */
  lemma StepsOrWaits(s: State, t: ThreadId)
    requires Reachable(s) && t in s.threads && !s.threads[t].pc.Finished?
    ensures Moves(s, t) || exists h :: Waits(s, t, h)
  {
    hide Reachable, Inv, CanStep, AwaitsChild, AwaitsWatcher, Held, HistoryOk, PcOk, TimedThread;
    ReachableInv(s);
    OwnFacts(s, t);
    var pc := s.threads[t].pc;
    if !Blocked(s, pc) {
      UnblockedSteps(s, t);
    } else if pc.WaitPort? || pc.AwaitDone? || pc.KillWait? {
      ChildWaiterHoldsLife(pc);
      LifeHolderProgress(s, t);
    } else {
      BlockedWaits(s, t);
    }
  }

  lemma ChildWaiterHoldsLife(pc: Pc)
    requires pc.WaitPort? || pc.AwaitDone? || pc.KillWait?
    ensures HoldsLife(pc)
  {
  }

  lemma BlockedWaits(s: State, t: ThreadId)
    requires t in s.threads && Blocked(s, s.threads[t].pc)
    requires !s.threads[t].pc.WaitPort? && !s.threads[t].pc.AwaitDone? && !s.threads[t].pc.KillWait?
    ensures exists h :: Waits(s, t, h)
  {
    match s.threads[t].pc
    case WantRestart => assert Waits(s, t, s.restart.value);
    case WantWriter(_) => assert Waits(s, t, s.writer.value);
    case WantRead => assert Waits(s, t, s.writer.value);
    case Draining(_) =>
      var h :| h in s.readers;
      assert Waits(s, t, h);
    case WantLife(_) => assert Waits(s, t, s.life.value);
  }

  /**
    The goroutine itself can go on; or it waits for a running child to announce its port or to exit, or for
    the watcher of one that has exited, which can step.
  */
  ghost predicate Moves(s: State, t: ThreadId) {
    CanStep(s, t) || AwaitsChild(s, t) || AwaitsWatcher(s, t)
  }

  /** A chain of waits leads from `t` to `h`. */
  ghost predicate WaitsThrough(s: State, t: ThreadId, h: ThreadId, n: nat)
    decreases n
  {
    if n == 0 then t == h else exists next :: Waits(s, t, next) && WaitsThrough(s, next, h, n - 1)
  }

  /**
    No deadlock: from every unfinished goroutine of every reachable state, at most four waits lead to one that
    can go on. Waits follow the lock order, so none of them closes a cycle, and no two goroutines are locked
    against each other while a third goes on.
  */
  lemma {:induction false} NoDeadlock(s: State, t: ThreadId) returns (h: ThreadId, n: nat)
    requires Reachable(s) && t in s.threads && !s.threads[t].pc.Finished?
    ensures WaitsThrough(s, t, h, n) && n <= Rank(s.threads[t].pc) <= 4
    ensures h in s.threads && !s.threads[h].pc.Finished? && Moves(s, h)
    decreases Rank(s.threads[t].pc)
  {
    hide Reachable, Moves, Waits;
    StepsOrWaits(s, t);
    if Moves(s, t) {
      h, n := t, 0;
    } else {
      var next :| Waits(s, t, next);
      LockOrder(s, t, next);
      var m;
      h, m := NoDeadlock(s, next);
      n := m + 1;
    }
  }

  lemma HolderFacts(s: State)
    requires Inv(s)
    ensures (s.life.Some? ==> s.life.value in s.threads) && (s.writer.Some? ==> s.writer.value in s.threads)
    ensures (s.restart.Some? ==> s.restart.value in s.threads) && s.readers <= s.threads.Keys
    ensures s.writer == None ==> !s.drained
  {
    hide ChildrenOk, RecordOk, ThreadsOk, ClockOk, ReadersOk, TimedOk, ThreadLocks;
  }
}
