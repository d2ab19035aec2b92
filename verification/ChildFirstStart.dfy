/**
  While Start, which is called once, is inside startLocked, no child has ever been ready, so no request can
  have got as far as reading a port. Hence of all terminations by stopLocked only the clean-up of a start made
  by EnsureStarted can sever one; the other way is the end of the daemon context, which kills the child.
*/
module ChildFirstStart {
  import opened Wrappers
  import opened ChildRecord
  import opened ChildLifecycle
  import opened ChildInvariant
  import opened ChildFrames
  import opened ChildSteps
  import opened ChildEvents
  import opened ChildTheorems
  import opened ChildShapes

  predicate NoneReady(s: State) {
    forall c: ChildId :: c < |s.kids| ==> !s.kids[c].ready
  }

  predicate FirstOk(s: State) {
    forall t :: t in s.threads && FirstStart(s.threads[t].pc) ==> NoneReady(s)
  }

  /** Without the stamp that ends a poll no child becomes ready. */
  lemma NoneReadyStays(s: State, pc: Pc, s': State)
    requires NoneReady(s) && KidsMove(s, pc, s') && !(pc.ProbeStamp? && pc.kind.Poll?)
    ensures NoneReady(s')
  {
  }

  lemma FirstHoldsLife(pc: Pc)
    ensures FirstStart(pc) ==> HoldsLife(pc)
  {
  }

  lemma ActKeepsFirst(s: State, t: ThreadId, ch: Choice, s': State)
    requires Inv(s) && FirstOk(s) && t in s.threads && ThreadStep(s, t, ch) == Some(s')
    ensures FirstOk(s')
  {
    hide Inv, ThreadStep, FirstStart, Held, NoneReady, KidsMove;
    StepShape(s, t, ch, s');
    OwnFacts(s, t);
    forall u | u in s'.threads && FirstStart(s'.threads[u].pc)
      ensures NoneReady(s')
    {
      if u != t {
        OwnFacts(s, u);
        FirstHoldsLife(s.threads[u].pc);
        PollHoldsLife(s.threads[t].pc);
      } else if s.threads[t].pc == WantLife(LifeForStart) {
        BeforeStart(s, t);
      }
      NoneReadyStays(s, s.threads[t].pc, s');
    }
  }

  lemma PollHoldsLife(pc: Pc)
    ensures pc.ProbeStamp? && pc.kind.Poll? ==> HoldsLife(pc)
  {
  }

  lemma BeforeStart(s: State, t: ThreadId)
    requires Inv(s) && t in s.threads && s.threads[t].pc == WantLife(LifeForStart)
    ensures s.kids == [] && NoneReady(s)
  {
    hide LocksOk, RecordOk, ClockOk, ReadersOk, TimedOk, Held, HistoryOk;
    assert PcOk(s, s.threads[t]);
  }

  lemma StepKeepsFirst(s: State, a: Action, s': State)
    requires Inv(s) && FirstOk(s) && Step(s, a) == Some(s')
    ensures FirstOk(s')
  {
    hide Inv, ThreadStep, StopWindow;
    if a.Act? {
      ActKeepsFirst(s, a.tid, a.choice, s');
    }
  }

  lemma {:induction false} RunKeepsFirst(s0: State, acts: seq<Action>, s: State)
    requires Init(s0) && Run(s0, acts) == Some(s)
    ensures Inv(s) && FirstOk(s)
  {
    hide Step, Inv, FirstOk;
    assert Reachable(s);
    ReachableInv(s);
    if acts == [] {
      FirstAtInit(s);
    } else {
      var front := acts[..|acts| - 1];
      RunKeepsFirst(s0, front, Run(s0, front).value);
      StepKeepsFirst(Run(s0, front).value, acts[|acts| - 1], s);
    }
  }

  lemma FirstAtInit(s: State)
    requires Init(s)
    ensures FirstOk(s)
  {
  }

  /** The request has read a port and is using it. */
  predicate Talking(pc: Pc) {
    pc.Calling? || pc.CallStamp?
  }

  /**
    While any termination signals a child or waits for it to go, a request that has read a port can be
    outstanding only if that termination cleans up a start made by EnsureStarted.
  */
  lemma OnlyEnsureCleanupSevers(s: State, t: ThreadId, u: ThreadId)
    requires Reachable(s) && t in s.threads && Terminating(s.threads[t].pc)
    requires u in s.threads && Talking(s.threads[u].pc)
    ensures s.threads[t].pc.cause == ForCleanup(ByEnsure)
  {
    hide Inv, Held, Run;
    ReachableInv(s);
    var cause := s.threads[t].pc.cause;
    if AfterDrain(cause) {
      NoEmbedSevered(s, t);
    } else if cause.from == ByStart {
      TalkerSawReady(s, u);
      assert FirstStart(s.threads[t].pc);
      NoneReadyYet(s, t);
    }
  }

  /** The daemon kills the child: a signal of stopLocked, its SIGKILL when the time is up, or the context's. */
  predicate DaemonKills(s: State, a: Action) {
    match a
    case Act(t, ch) =>
      t in s.threads && (s.threads[t].pc.Signal? || (s.threads[t].pc.StopWait? && ch == Expire))
    case ContextKill(_) => true
    case _ => false
  }

  /**
    In every run, when the daemon kills a child while a request that has read a port is outstanding, it is
    cleaning up a start made by EnsureStarted, or the daemon context is done. What needs proof is the first:
    that the context is done is the guard of its own kill.
  */
  lemma OnlyCleanupOrContextSevers(s: State, a: Action, u: ThreadId)
    requires Reachable(s) && Step(s, a).Some? && DaemonKills(s, a)
    requires u in s.threads && Talking(s.threads[u].pc)
    ensures match a
            case Act(t, _) => t in s.threads && Terminating(s.threads[t].pc)
                && s.threads[t].pc.cause == ForCleanup(ByEnsure)
            case _ => s.ctxDone
  {
    hide Reachable, ThreadStep;
    match a
    case Act(t, _) => OnlyEnsureCleanupSevers(s, t, u);
    case _ =>
  }

  lemma NoneReadyYet(s: State, t: ThreadId)
    requires Reachable(s) && t in s.threads && FirstStart(s.threads[t].pc)
    ensures NoneReady(s)
  {
    hide Inv, Step, Run, NoneReady;
    var s0: State, acts: seq<Action> :| Init(s0) && Run(s0, acts) == Some(s);
    RunKeepsFirst(s0, acts, s);
  }

  lemma TalkerSawReady(s: State, u: ThreadId)
    requires Inv(s) && u in s.threads && Talking(s.threads[u].pc)
    ensures !NoneReady(s)
  {
    hide Inv, PcOk, ThreadLocks, TimedThread;
    OwnFacts(s, u);
  }
}
