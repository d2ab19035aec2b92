/** What the child lifecycle protocol guarantees in every reachable state. */
module ChildTheorems {
  import opened Wrappers
  import opened ChildRecord
  import opened ChildLifecycle
  import opened ChildInvariant
  import opened ChildFrames
  import opened ChildSteps
  import opened ChildEvents

  // ----- one child at a time -----

  /** At most one llama-server process runs, whatever the interleaving. */
  lemma AtMostOneLiveChild(s: State, c: ChildId, d: ChildId)
    requires Reachable(s) && c < |s.kids| && d < |s.kids| && !s.kids[c].exited && !s.kids[d].exited
    ensures c == d
  {
    hide Reachable, ClockOk, ReadersOk, TimedOk, LocksOk, Held, HistoryOk, PcOk, StopWindow;
    ReachableInv(s);
    if c != d {
      assert c !in s.reaped && d !in s.reaped;
      UnpublishedIsNew(s);
    }
  }

  /** The watcher of a child always finds its own child in the record, never a newer one. */
  lemma WatcherClearsItsOwnChild(s: State, c: ChildId, s': State)
    requires Reachable(s) && Step(s, Reap(c)) == Some(s')
    ensures s.rec.cmd == Some(c)
    ensures s'.rec.cmd == None && s'.rec.port == 0 && s'.rec.state == ChildFailed
  {
    hide Reachable, Inv;
    ReachableInv(s);
    WatcherOwnsRecord(s, c);
  }

  /** The step is the one with which startLocked, called by `from`, returns an error. */
  predicate StartFailsHere(s: State, t: ThreadId, ch: Choice, from: StartCaller) {
    && t in s.threads
    && match s.threads[t].pc
       case Spawn(f) => f == from && ch != Proceed
       case AwaitDone(f, c) => f == from
       case StopBegin(cause) => cause == ForCleanup(from) && s.rec.cmd == None
       case StopEnd(cause) => cause == ForCleanup(from)
       case _ => false
  }

  /** A startLocked that fails leaves no process behind and nothing in the record. */
  lemma FailedStartLeavesNoChild(s: State, t: ThreadId, ch: Choice, from: StartCaller, s': State)
    requires Reachable(s) && StartFailsHere(s, t, ch, from) && Step(s, Act(t, ch)) == Some(s')
    ensures t in s'.threads && s'.threads[t].pc == StartReturn(from, false)
    ensures s'.rec.cmd == None && forall c: ChildId :: c < |s'.kids| ==> s'.kids[c].exited
  {
    hide Reachable, Inv, Held;
    ReachableInv(s);
    FailureSeesNoCmd(s, t, ch, from, s');
    NoCmdNoChild(s, t);
  }

  lemma FailureSeesNoCmd(s: State, t: ThreadId, ch: Choice, from: StartCaller, s': State)
    requires Inv(s) && StartFailsHere(s, t, ch, from) && ThreadStep(s, t, ch) == Some(s')
    ensures s.rec.cmd == None && s'.rec.cmd == None && s'.kids == s.kids && t in s'.threads
              && s'.threads[t].pc == StartReturn(from, false)
    ensures s.life == Some(t) && Unpublished(s.threads[t].pc) == None
  {
    hide Inv, Held, LockStep, EnsureStep, ProbeStep, EmbedStep, StartStep, StopStep, StartReturn;
    FailureFindsNoCmd(s, t, ch, from);
    if s.threads[t].pc.Spawn? || s.threads[t].pc.AwaitDone? {
      FailureInStart(s, t, ch, from, s');
    } else {
      FailureInStop(s, t, ch, from, s');
    }
  }

  lemma FailureInStart(s: State, t: ThreadId, ch: Choice, from: StartCaller, s': State)
    requires StartFailsHere(s, t, ch, from) && StartStep(s, t, ch) == Some(s')
    ensures s'.rec == s.rec && s'.kids == s.kids && t in s'.threads && s'.threads[t].pc == StartReturn(from, false)
  {
  }

  lemma FailureInStop(s: State, t: ThreadId, ch: Choice, from: StartCaller, s': State)
    requires StartFailsHere(s, t, ch, from) && StopStep(s, t, ch) == Some(s') && s.rec.cmd == None
    ensures s'.rec.cmd == None && s'.kids == s.kids && t in s'.threads && s'.threads[t].pc == StartReturn(from, false)
  {
    hide StartReturn;
    assert StopReturn(ForCleanup(from)) == StartReturn(from, false);
    match s.threads[t].pc
    case StopBegin(_) =>
    case StopEnd(_) =>
    case _ =>
  }

  lemma FailureFindsNoCmd(s: State, t: ThreadId, ch: Choice, from: StartCaller)
    requires Inv(s) && StartFailsHere(s, t, ch, from) && ThreadStep(s, t, ch).Some?
    ensures s.rec.cmd == None && s.life == Some(t) && Unpublished(s.threads[t].pc) == None
  {
    hide Inv, HistoryOk, TimedThread, Held, LockStep, EnsureStep, ProbeStep, EmbedStep, StopStep;
    OwnFacts(s, t);
    FailingHolds(s.threads[t].pc);
    if s.threads[t].pc.AwaitDone? {
      DoneChildGone(s, s.threads[t].pc.child);
    }
  }

  lemma FailingHolds(pc: Pc)
    requires pc.Spawn? || pc.AwaitDone? || pc.StopBegin? || pc.StopEnd?
    ensures HoldsLife(pc) && Unpublished(pc) == None
  {
  }

  lemma DoneChildGone(s: State, c: ChildId)
    requires Inv(s) && c < |s.kids| && s.kids[c].done
    ensures s.rec.cmd != Some(c)
  {
    hide LocksOk, ThreadsOk, ClockOk, ReadersOk, TimedOk, Held, StopWindow;
  }

  lemma NoCmdNoChild(s: State, t: ThreadId)
    requires Inv(s) && s.rec.cmd == None && s.life == Some(t) && t in s.threads
              && Unpublished(s.threads[t].pc) == None
    ensures forall c: ChildId :: c < |s.kids| ==> s.kids[c].exited
  {
    hide LocksOk, ThreadsOk, ClockOk, ReadersOk, TimedOk, Held, StopWindow;
  }

  /** While nobody holds lifecycleMu, a published child's port is set, and is the one that child announced. */
  lemma PortBelongsToChild(s: State)
    requires Reachable(s) && s.life == None && s.rec.cmd.Some?
    ensures s.rec.port != 0 && s.rec.cmd.value < |s.kids| && s.kids[s.rec.cmd.value].delivered == Some(s.rec.port)
  {
    hide Reachable, LocksOk, ChildrenOk, ThreadsOk, ClockOk, ReadersOk, TimedOk, Held, StopWindow;
    ReachableInv(s);
  }

  // ----- embeds are drained before a kill -----

  /** The child is being signalled, or waited for after the signal. */
  predicate Terminating(pc: Pc) {
    pc.Signal? || pc.StopWait? || pc.KillWait?
  }

  /** Every termination except the clean-up of a start made by Start or by EnsureStarted itself. */
  predicate AfterDrain(cause: StopCaller) {
    cause.ForSuspend? || cause == ForVerdict || cause == ForCleanup(ByRestart)
  }

  predicate CallOutstanding(pc: Pc) {
    pc.ReadPort? || pc.Calling? || pc.CallStamp? || pc.DropRead?
  }

  /**
    From the moment Stop or restartIfDead signals the child until the child's watcher is done, no
    embed holds the read lock, so no request is outstanding that has read the child's port.
  */
  lemma NoEmbedSevered(s: State, t: ThreadId)
    requires Reachable(s) && t in s.threads && Terminating(s.threads[t].pc) && AfterDrain(s.threads[t].pc.cause)
    ensures s.writer == Some(t) && s.drained && s.readers == {}
    ensures forall u :: u in s.threads ==> !CallOutstanding(s.threads[u].pc)
  {
    hide Reachable, Inv, Held;
    ReachableInv(s);
    assert LocksOk(s) by { InvParts(s); }
    DrainedIsWriter(s);
    OwnFacts(s, t);
    TerminatesDrained(s.threads[t].pc);
    forall u | u in s.threads
      ensures !CallOutstanding(s.threads[u].pc)
    {
      OwnFacts(s, u);
      OutstandingReads(s.threads[u].pc);
    }
  }

  lemma TerminatesDrained(pc: Pc)
    requires Terminating(pc) && AfterDrain(pc.cause)
    ensures HoldsWriter(pc) && HoldsDrained(pc)
  {
  }

  lemma OutstandingReads(pc: Pc)
    ensures CallOutstanding(pc) ==> HoldsRead(pc)
  {
  }

  /** A pending drain waits only for readers that were there first, so no longer than any of them still has. */
  lemma DrainWaitsForEarlierReaders(s: State)
    requires Reachable(s) && s.writer.Some? && !s.drained
    ensures s.readers <= s.threads.Keys && forall t :: t in s.readers && t in s.threads ==>
              s.threads[t].rlockAt <= s.pendingSince
  {
    hide Reachable, ThreadsOk, RecordOk, ChildrenOk, ClockOk, TimedOk, ThreadLocks;
    ReachableInv(s);
  }

  // ----- restartIfDead -----

  /**
    restartIfDead signals a child only if the probe it made after the drain, at that child's own port,
    failed while it held inflightMu's drained writer side and lifecycleMu, which it still holds; and only
    if there had been no proof of life within ALIVE_GRACE when its restartMu section began.
  */
  lemma VerdictKillIsJustified(s: State, t: ThreadId, c: ChildId, d: ChildId)
    requires Reachable(s) && t in s.threads && s.threads[t].pc == Signal(ForVerdict, c, d)
    ensures d == c && c < |s.kids|
    ensures s.restart == Some(t) && s.writer == Some(t) && s.drained && s.life == Some(t)
    ensures s.threads[t].verdict.Some? && s.threads[t].verdict.value.child == c
    ensures s.kids[c].delivered == Some(s.threads[t].verdict.value.port) && s.threads[t].verdict.value.drainedAndLocked
    ensures s.threads[t].grace.Some? && Stale(s.threads[t].grace.value)
  {
    hide Reachable, Inv, HistoryOk;
    ReachableInv(s);
    OwnFacts(s, t);
  }

  lemma {:induction false} KillsAreSpaced(s: State, i: nat, j: nat)
    requires ClockOk(s) && i <= j < |s.kills|
    ensures s.kills[i].at <= s.kills[j].at && s.kills[i].failuresBefore <= s.kills[j].failuresBefore
    ensures (j - i) * ALIVE_GRACE <=
              s.kills[j].at - s.kills[i].at + (s.kills[j].failuresBefore - s.kills[i].failuresBefore) * ALIVE_GRACE
    decreases j - i
  {
    if i < j {
      KillsAreSpaced(s, i, j - 1);
      assert Spaced(s.kills[j - 1], s.kills[j]);
    }
  }

  /**
    However many threads queue on restartMu, the verdict kills from the i-th to the j-th number at most
    one, plus one for each ALIVE_GRACE between the first and the last, plus one for each restart that failed
    between them. If every restart succeeds, a window of length T holds at most 1 + T / ALIVE_GRACE.
  */
  lemma RestartRate(s: State, i: nat, j: nat, from: nat, length: nat)
    requires Reachable(s) && i <= j < |s.kills| && from <= s.kills[i].at && s.kills[j].at <= from + length
    ensures s.kills[i].failuresBefore <= s.kills[j].failuresBefore
    ensures j - i + 1 <= 1 + length / ALIVE_GRACE + (s.kills[j].failuresBefore - s.kills[i].failuresBefore)
  {
    hide Reachable, LocksOk, ChildrenOk, RecordOk, ThreadsOk, ReadersOk, TimedOk;
    ReachableInv(s);
    KillsAreSpaced(s, i, j);
  }

  // ----- why the child is down -----

  /**
    Serving, asked at any moment: IDLE exactly when the last child that was published left inside a Stop, after
    that Stop had seen it running, and the Stop has written its state; DEGRADED exactly when there is no child
    for another reason; and otherwise it probes.
  */
  lemma IdleExactlyAfterStop(s: State, t: ThreadId, ch: Choice, s': State)
    requires Reachable(s) && t in s.threads && s.threads[t].pc == ServeRead && Step(s, Act(t, ch)) == Some(s')
    ensures t in s'.threads
    ensures s'.threads[t].pc == Finished(Reported(ServingIdle)) <==>
              s.rec.cmd == None && LastLeftInStop(s) && !StopWindow(s)
    ensures s'.threads[t].pc == Finished(Reported(ServingDegraded)) <==>
              s.rec.cmd == None && (!LastLeftInStop(s) || StopWindow(s))
    ensures s'.threads[t].pc == ProbeRead(Report) <==> s.rec.cmd.Some?
  {
    hide Reachable, Inv, StopWindow, LastLeftInStop, LockStep, EnsureStep, ProbeStep, StartStep, StopStep;
    ReachableInv(s);
    StateTellsWhy(s);
  }

  /** What the state says when there is no child. */
  lemma StateTellsWhy(s: State)
    requires Inv(s)
    ensures s.rec.cmd.Some? ==> s.rec.state == ChildRunning
    ensures s.rec.cmd == None ==> (s.rec.state == ChildSuspended <==> LastLeftInStop(s) && !StopWindow(s))
  {
    hide LocksOk, ChildrenOk, ThreadsOk, ClockOk, ReadersOk, TimedOk, Held, StopWindow, LastLeftInStop;
  }

  /**
    And after the probe: OK at once on an answer, which is itself stamped; after a miss OK exactly within the
    grace of the last proof of life, and DEGRADED exactly beyond it.
  */
  lemma ServingAfterProbe(s: State, t: ThreadId, ch: Choice, s': State)
    requires t in s.threads && Step(s, Act(t, ch)) == Some(s')
    requires s.threads[t].pc == ProbeStamp(Report) || s.threads[t].pc == ServeGrace
    ensures t in s'.threads
    ensures s.threads[t].pc == ProbeStamp(Report) ==>
              s'.threads[t].pc == Finished(Reported(ServingOK)) && s'.lastAlive == s.now
    ensures s.threads[t].pc == ServeGrace ==>
              && (s'.threads[t].pc == Finished(Reported(ServingOK)) <==>
                    s.lastAlive > 0 && s.now < s.lastAlive + 15_000)
              && (s'.threads[t].pc == Finished(Reported(ServingDegraded)) <==>
                    s.lastAlive == 0 || s.lastAlive + 15_000 <= s.now)
  {
    hide LockStep, EnsureStep, StartStep, StopStep;
  }

  /** A watcher stays silent about an exit only when a stopLocked has marked that very child. */
  lemma SilentOnlyWhenStopped(s: State, c: ChildId)
    requires Reachable(s) && Step(s, Reap(c)).Some? && s.rec.stopping
    ensures s.life.Some? && s.life.value in s.threads
    ensures Terminating(s.threads[s.life.value].pc) && s.threads[s.life.value].pc.child == c
  {
    hide Reachable, LocksOk, ChildrenOk, ClockOk, ReadersOk, TimedOk, Held, HistoryOk, StopWindow;
    ReachableInv(s);
    WatcherOwnsRecord(s, c);
    var t := s.life.value;
    MarkedPcs(s.threads[t].pc);
    assert PcOk(s, s.threads[t]);
  }

  lemma MarkedPcs(pc: Pc)
    ensures StopMarking(pc) ==> Terminating(pc) || pc.StopEnd?
  {
  }
}
