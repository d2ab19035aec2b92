/** Threads, watchers, children, the clock and new goroutines keep the invariant; so every reachable state has it. */
module ChildEvents {
  import opened Wrappers
  import opened ChildRecord
  import opened ChildLifecycle
  import opened ChildInvariant
  import opened ChildFrames
  import opened ChildShapes
  import opened ChildSteps
  import opened ChildWorld

  // ----- threads -----

  predicate DoesItsPart(s: State, t: ThreadId, ch: Choice, s': State)
    requires t in s.threads
  {
    LocksMove(s, t, s') && NotesMove(s, t, s') && (TouchesWorld(s, s.threads[t].pc, ch) || PhaseMoves(s, t, s'))
  }

  lemma LockPart(s: State, t: ThreadId, ch: Choice, s': State)
    requires t in s.threads && Knows(s, t) && LockStep(s, t) == Some(s')
    ensures DoesItsPart(s, t, ch, s')
  {
    hide LocksMove, NotesMove, PhaseMoves, Knows;
    match s.threads[t].pc {
      case WantLife(use) =>
        if use.LifeForStart? {
          TakeLifeForStart(s, t, ch, s');
          assert TouchesWorld(s, s.threads[t].pc, ch);
        } else {
          TakeLifeLocks(s, t, ch, s');
          TakeLifeNotes(s, t, ch, s');
        }
      case WantRestart => TakeRestart(s, t, ch, s');
      case WantWriter(_) => TakeWriter(s, t, ch, s');
      case Draining(_) => FinishDrain(s, t, ch, s');
      case DropLife(_) =>
        DropLifeLocks(s, t, ch, s');
        DropLifeNotes(s, t, ch, s');
      case DropWriter(_) =>
        LeaveWriterLocks(s, t, ch, s');
        LeaveWriterNotes(s, t, ch, s');
      case DropRestart(_) =>
        DropRestartLocks(s, t, ch, s');
        DropRestartNotes(s, t, ch, s');
      case WantRead =>
        TakeReadLocks(s, t, ch, s');
        TakeReadNotes(s, t, ch, s');
    }
  }

  lemma EnsurePart(s: State, t: ThreadId, ch: Choice, s': State)
    requires t in s.threads && Knows(s, t) && EnsureStep(s, t) == Some(s') && Shape(s, t, s')
    ensures DoesItsPart(s, t, ch, s')
  {
    hide LocksMove, NotesMove, PhaseMoves, Knows, TouchesWorld, Stays, Shape;
    match s.threads[t].pc {
      case CheckContext => ContextChecked(s, t, ch, s');
      case ReadCmd =>
        if s.rec.cmd == None { NoChildFound(s, t, ch, s'); } else { ChildFound(s, t, ch, s'); }
      case QuickGrace => GraceAfterMiss(s, t, ch, s');
      case RestartGrace =>
        if RecentlyAlive(s) { StillInGrace(s, t, ch, s'); } else { GraceOver(s, t, ch, s'); }
      case RestartReadCmd => CondemnedRead(s, t, ch, s');
    }
    StayLocks(s, t, ch, s');
  }

  lemma ProbePart(s: State, t: ThreadId, ch: Choice, s': State)
    requires t in s.threads && Knows(s, t) && ProbeStep(s, t, ch) == Some(s') && Shape(s, t, s')
    ensures DoesItsPart(s, t, ch, s')
  {
    hide LocksMove, NotesMove, PhaseMoves, Knows, TouchesWorld, Stays, Shape, Listening, NoteMiss;
    match s.threads[t].pc {
      case ProbeRead(kind) =>
        if s.rec.port == 0 { Misses(s, t, ch, kind, 0); } else { Aims(s, t, ch, s'); }
      case ProbeWait(kind, p) =>
        if ch == Proceed { Hits(s, t, ch, s'); } else { Misses(s, t, ch, kind, p); }
      case ProbeStamp(kind) =>
        match kind {
          case Poll(_, _) => PollStamped(s, t, ch, s');
          case Report => ReportStamped(s, t, ch, s');
          case IdleCheck => TickStamped(s, t, ch, s');
          case _ =>
        }
    }
    StayLocks(s, t, ch, s');
  }

  lemma StartPart(s: State, t: ThreadId, ch: Choice, s': State)
    requires t in s.threads && Knows(s, t) && StartStep(s, t, ch) == Some(s') && Shape(s, t, s')
    ensures DoesItsPart(s, t, ch, s')
  {
    hide LocksMove, NotesMove, PhaseMoves, Knows, TouchesWorld, Stays, Shape;
    match s.threads[t].pc {
      case Spawn(_) =>
        if ch == Proceed { Spawned(s, t, ch, s'); } else { SpawnFails(s, t, ch, s'); }
      case PublishChild(_, _) => Publishes(s, t, ch, s');
      case WaitPort(_, _) =>
        match ch {
          case Proceed => PortAnnounced(s, t, ch, s');
          case Refuse => LogClosed(s, t, ch, s');
          case Expire => StartCancelled(s, t, ch, s');
        }
      case WritePort(_, _, _) => WritesPort(s, t, ch, s');
      case PollWait(_, _) =>
        match ch {
          case Proceed => PollsAgain(s, t, ch, s');
          case Refuse => PollLogClosed(s, t, ch, s');
          case Expire => PollExpires(s, t, ch, s');
        }
      case AwaitDone(_, _) => DoneAwaited(s, t, ch, s');
    }
    StayLocks(s, t, ch, s');
  }

  lemma StopPart(s: State, t: ThreadId, ch: Choice, s': State)
    requires t in s.threads && Knows(s, t) && StopStep(s, t, ch) == Some(s') && Shape(s, t, s')
    ensures DoesItsPart(s, t, ch, s')
  {
    hide LocksMove, NotesMove, PhaseMoves, Knows, TouchesWorld, Stays, Shape;
    match s.threads[t].pc {
      case StopReadCmd => StopReads(s, t, ch, s');
      case StopBegin(_) =>
        if s.rec.cmd.Some? { MarksStop(s, t, ch, s'); } else { FindsNothingToStop(s, t, ch, s'); }
      case Signal(cause, _, _) =>
        if cause.ForVerdict? { VerdictKills(s, t, ch, s'); } else { Signals(s, t, ch, s'); }
      case StopWait(_, _, _) =>
        if ch == Expire { StopExpires(s, t, ch, s'); } else { StopWaited(s, t, ch, s'); }
      case KillWait(_, _, _) => KillWaited(s, t, ch, s');
      case StopEnd(_) =>
        StopEndStays(s, t, ch, s');
        StopEndNotes(s, t, ch, s');
      case SuspendMark(_) => MarksSuspended(s, t, ch, s');
    }
    StayLocks(s, t, ch, s');
  }

  lemma EmbedPart(s: State, t: ThreadId, ch: Choice, s': State)
    requires t in s.threads && Knows(s, t) && EmbedStep(s, t, ch) == Some(s') && Shape(s, t, s')
    ensures DoesItsPart(s, t, ch, s')
  {
    hide LocksMove, NotesMove, PhaseMoves, Knows, TouchesWorld, Stays, Shape, Listening, RecentlyAlive;
    match s.threads[t].pc {
      case ReadPort =>
        if s.rec.port == 0 { ChildLost(s, t, ch, s'); } else { PortRead(s, t, ch, s'); }
      case Calling(_) =>
        if ch == Proceed { CallAnswered(s, t, ch, s'); } else { CallFails(s, t, ch, s'); }
      case CallStamp => CallStamped(s, t, ch, s');
      case DropRead(res) =>
        DropReadLocks(s, t, ch, s');
        match res {
          case EmbedOk => EmbedAnswered(s, t, ch, s');
          case EmbedError => EmbedFails(s, t, ch, s');
          case EmbedNotStarted => AttemptCounted(s, t, ch, s');
        }
      case ServeRead => ServingReads(s, t, ch, s');
      case ServeGrace => ServingGrace(s, t, ch, s');
    }
    if !s.threads[t].pc.DropRead? {
      StayLocks(s, t, ch, s');
    }
  }

  lemma ThreadPart(s: State, t: ThreadId, ch: Choice, s': State)
    requires Knows(s, t) && ThreadStep(s, t, ch) == Some(s')
    ensures DoesItsPart(s, t, ch, s')
  {
    hide DoesItsPart, Shape, LockStep, EnsureStep, ProbeStep, StartStep, StopStep, EmbedStep;
    assert t in s.threads;
    hide Knows;
    StepShape(s, t, ch, s');
    if LockStep(s, t) == Some(s') {
      LockPart(s, t, ch, s');
    } else if EnsureStep(s, t) == Some(s') {
      EnsurePart(s, t, ch, s');
    } else if ProbeStep(s, t, ch) == Some(s') {
      ProbePart(s, t, ch, s');
    } else if StartStep(s, t, ch) == Some(s') {
      StartPart(s, t, ch, s');
    } else if StopStep(s, t, ch) == Some(s') {
      StopPart(s, t, ch, s');
    } else {
      EmbedPart(s, t, ch, s');
    }
  }

  lemma WorldPart(s: State, t: ThreadId, ch: Choice, s': State)
    requires WorldOk(s) && Knows(s, t) && ThreadStep(s, t, ch) == Some(s') && TouchesWorld(s, s.threads[t].pc, ch)
    ensures WorldOk(s')
  {
    hide WorldOk, LockStep, EnsureStep, ProbeStep, StartStep, StopStep, EmbedStep;
    assert t in s.threads;
    hide Knows;
    match s.threads[t].pc
    case WantLife(_) => ContextSet(s, t, s');
    case Spawn(_) => ChildSpawned(s, t, s');
    case PublishChild(_, _) => ChildPublished(s, t, ch, s');
    case WritePort(_, _, _) => PortWritten(s, t, ch, s');
    case ProbeStamp(_) => ChildReady(s, t, ch, s');
    case StopBegin(_) => StopMarks(s, t, ch, s');
    case StopEnd(_) => StopUnmarks(s, t, ch, s');
    case SuspendMark(_) => Suspended(s, t, ch, s');
  }

  lemma ThreadStepKeeps(s: State, t: ThreadId, ch: Choice, s': State)
    requires Inv(s) && t in s.threads && ThreadStep(s, t, ch) == Some(s')
    ensures Inv(s')
  {
    hide Inv, Knows, ThreadStep, TouchesWorld, LocksMove, NotesMove, PhaseMoves, ChildrenOk, RecordOk;
    InvKnows(s, t);
    ThreadPart(s, t, ch, s');
    if TouchesWorld(s, s.threads[t].pc, ch) {
      InvParts(s);
      WorldPart(s, t, ch, s');
    }
    MovedKeeps(s, t, s');
  }

  // ----- everything else that can happen -----

  /** Nothing changed but the record, the children, the context flag or the time. */
  predicate SameThreads(s: State, s': State) {
    && s'.threads == s.threads && s'.starter == s.starter && SameLocks(s, s') && s'.ctxSet == s.ctxSet
    && s'.kills == s.kills && s'.failedRestarts == s.failedRestarts && s'.lastAlive == s.lastAlive && s.now <= s'.now
  }

  lemma EventKeeps(s: State, s': State)
    requires Inv(s) && SameThreads(s, s') && WorldGrows(s, s')
    requires ChildrenOk(s') && RecordOk(s')
    requires forall t :: t in s.threads ==> PcOk(s', s.threads[t])
    ensures Inv(s')
  {
    hide LocksOk, ThreadsOk, ChildrenOk, RecordOk, ClockOk, ReadersOk, TimedOk, SameThreads, WorldGrows, PcOk;
    EventLocks(s, s');
    EventClock(s, s');
    EventThreads(s, s');
  }

  lemma EventLocks(s: State, s': State)
    requires LocksOk(s) && ReadersOk(s) && SameThreads(s, s')
    ensures LocksOk(s') && ReadersOk(s')
  {
    hide Held;
  }

  lemma EventClock(s: State, s': State)
    requires ClockOk(s) && TimedOk(s) && SameThreads(s, s')
    ensures ClockOk(s') && TimedOk(s')
  {
    hide Held;
  }

  lemma EventThreads(s: State, s': State)
    requires ThreadsOk(s) && SameThreads(s, s') && WorldGrows(s, s')
    requires forall t :: t in s.threads ==> PcOk(s', s.threads[t])
    ensures ThreadsOk(s')
  {
    hide PcOk, HistoryOk, Held, WorldGrows;
    forall t | t in s'.threads
      ensures HistoryOk(s', s'.threads[t])
    {
      HistoryFrame(s, s', s.threads[t]);
    }
  }

  // ----- watchers -----

  /** When a watcher runs, its child is the one in the record: the test in watchChild never fails. */
  lemma WatcherOwnsRecord(s: State, c: ChildId)
    requires Inv(s) && ReapStep(s, c).Some?
    ensures s.rec.cmd == Some(c) && s.lastPublished == Some(c)
  {
    hide ClockOk, ReadersOk, TimedOk, StopWindow, HistoryOk, ThreadLocks;
    if s.rec.cmd != Some(c) {
      assert Unpublished(HolderPc(s)) == Some(c);
      UnpublishedIsNew(s);
    }
  }

  lemma PcReap(s: State, s': State, th: Thread, c: ChildId)
    requires PcOk(s, th) && ReapStep(s, c) == Some(s') && s.rec.cmd == Some(c)
    ensures PcOk(s', th)
  {
    hide StopWindow;
  }

  lemma ReapKeeps(s: State, c: ChildId, s': State)
    requires Inv(s) && ReapStep(s, c) == Some(s')
    ensures Inv(s')
  {
    hide Inv, PcOk, StopWindow;
    WatcherOwnsRecord(s, c);
    ReapedRecord(s, c, s');
    forall t | t in s.threads
      ensures PcOk(s', s.threads[t])
    {
      OwnFacts(s, t);
      PcReap(s, s', s.threads[t], c);
    }
    EventKeeps(s, s');
  }

  lemma ReapedRecord(s: State, c: ChildId, s': State)
    requires Inv(s) && ReapStep(s, c) == Some(s') && s.rec.cmd == Some(c)
    ensures ChildrenOk(s') && RecordOk(s')
  {
    hide LocksOk, ThreadsOk, ClockOk, ReadersOk, TimedOk, Held, StopWindowPc;
    assert HolderPc(s') == HolderPc(s) && StopWindow(s') == StopWindow(s);
  }

  // ----- children -----

  /** A child's event leaves what is known of it, but for its first announcement of a port, and its exit. */
  predicate ChildMoves(k: Child, k': Child) {
    && k'.ready == k.ready && k'.leftInStop == k.leftInStop && (k.exited ==> k'.exited)
    && (k'.delivered == k.delivered || k.delivered == None)
  }

  predicate ChildrenMove(s: State, s': State) {
    && s' == s.(kids := s'.kids) && |s'.kids| == |s.kids|
    && forall c: ChildId :: c < |s.kids| ==>
         ChildMoves(s.kids[c], s'.kids[c]) && (s'.kids[c].done ==> s.kids[c].done || c in s.reaped)
  }

  lemma ChildStepMoves(s: State, a: Action, s': State)
    requires ChildStep(s, a) == Some(s')
    ensures ChildrenMove(s, s')
  {
  }

  lemma PcChild(s: State, s': State, th: Thread)
    requires PcOk(s, th) && ChildrenMove(s, s')
    ensures PcOk(s', th)
  {
  }

  lemma ChildStepKeeps(s: State, a: Action, s': State)
    requires Inv(s) && ChildStep(s, a) == Some(s')
    ensures Inv(s')
  {
    hide Inv, PcOk, ChildrenOk, RecordOk;
    ChildStepMoves(s, a, s');
    ChildParts(s);
    MovedChildren(s, s');
    MovedRecord(s, s');
    forall t | t in s.threads
      ensures PcOk(s', s.threads[t])
    {
      OwnFacts(s, t);
      PcChild(s, s', s.threads[t]);
    }
    EventKeeps(s, s');
  }

  lemma ChildParts(s: State)
    requires Inv(s)
    ensures ChildrenOk(s) && RecordOk(s)
  {
    hide LocksOk, ChildrenOk, RecordOk, ThreadsOk, ClockOk, ReadersOk, TimedOk;
  }

  lemma MovedChildren(s: State, s': State)
    requires ChildrenOk(s) && ChildrenMove(s, s')
    ensures ChildrenOk(s')
  {
    hide Held;
    assert HolderPc(s') == HolderPc(s);
  }

  lemma MovedRecord(s: State, s': State)
    requires ChildrenOk(s) && RecordOk(s) && ChildrenMove(s, s')
    ensures RecordOk(s')
  {
    hide ChildrenOk, Held, StopWindowPc;
    assert HolderPc(s') == HolderPc(s) && StopWindow(s') == StopWindow(s);
  }

  // ----- the context, the clock, new goroutines -----

  lemma ClockStepKeeps(s: State, s': State)
    requires Inv(s) && s' == s.(ctxDone := s'.ctxDone, now := s'.now) && s.now <= s'.now
    ensures Inv(s')
  {
    hide Inv, PcOk;
    SameRecord(s, s');
    forall t | t in s.threads
      ensures PcOk(s', s.threads[t])
    {
      OwnFacts(s, t);
      PcFrame(s, s', s.threads[t]);
    }
    EventKeeps(s, s');
  }

  lemma SameRecord(s: State, s': State)
    requires Inv(s) && SameWorld(s, s') && s'.life == s.life && s'.threads == s.threads && s'.starter == s.starter
    ensures ChildrenOk(s') && RecordOk(s')
  {
    hide LocksOk, ThreadsOk, ClockOk, ReadersOk, TimedOk, Held, StopWindowPc;
    assert HolderPc(s') == HolderPc(s) && StopWindow(s') == StopWindow(s);
  }

  lemma FirstHolds(op: Op)
    ensures Held(FirstPc(op)).Nothing? && NoPhase(FirstPc(op))
  {
  }

  lemma BeginKeeps(s: State, t: ThreadId, op: Op, s': State)
    requires Inv(s) && BeginStep(s, t, op) == Some(s')
    ensures Inv(s')
  {
    BeginLocks(s, t, op, s');
    BeginThreads(s, t, op, s');
    BeginRecord(s, t, op, s');
    BeginTime(s, t, op, s');
  }

  lemma BeginLocks(s: State, t: ThreadId, op: Op, s': State)
    requires Inv(s) && BeginStep(s, t, op) == Some(s')
    ensures LocksOk(s')
  {
    hide ChildrenOk, RecordOk, ThreadsOk, ClockOk, ReadersOk, TimedOk, Held, FirstPc;
    FirstHolds(op);
    forall u | u in s'.threads
      ensures ThreadLocks(s', u, s'.threads[u].pc)
    {
      if u != t {
        assert ThreadLocks(s, u, s.threads[u].pc);
      }
    }
  }

  lemma BeginThreads(s: State, t: ThreadId, op: Op, s': State)
    requires Inv(s) && BeginStep(s, t, op) == Some(s')
    ensures ThreadsOk(s')
  {
    hide LocksOk, RecordOk, ClockOk, ReadersOk, TimedOk, PcOk, HistoryOk, Held;
    FirstIsOk(s', s'.threads[t]);
    forall u | u in s'.threads
      ensures PcOk(s', s'.threads[u]) && HistoryOk(s', s'.threads[u])
      ensures s'.threads[u].op == Starting <==> s'.starter == Some(u)
    {
      if u != t {
        assert s.threads[u].op == Starting <==> s.starter == Some(u);
        PcFrame(s, s', s.threads[u]);
        HistoryFrame(s, s', s.threads[u]);
      }
    }
  }

  lemma FirstIsOk(s: State, th: Thread)
    requires th == Thread(th.op, FirstPc(th.op), 0, None, [], s.reaped, 0, None, None, false)
    requires th.op == Starting ==> !s.ctxSet
    ensures PcOk(s, th) && HistoryOk(s, th)
  {
  }

  lemma BeginRecord(s: State, t: ThreadId, op: Op, s': State)
    requires Inv(s) && BeginStep(s, t, op) == Some(s')
    ensures ChildrenOk(s') && RecordOk(s')
  {
    hide ThreadsOk, ClockOk, ReadersOk, TimedOk, Held, StopWindowPc, ThreadLocks;
    assert HolderPc(s') == HolderPc(s) && StopWindow(s') == StopWindow(s);
  }

  lemma BeginTime(s: State, t: ThreadId, op: Op, s': State)
    requires Inv(s) && BeginStep(s, t, op) == Some(s')
    ensures ClockOk(s') && ReadersOk(s') && TimedOk(s')
  {
    hide ThreadsOk, ChildrenOk, RecordOk, Held, ThreadLocks;
    FirstHolds(op);
  }

  // ----- all steps, all runs -----

  lemma StepKeeps(s: State, a: Action, s': State)
    requires Inv(s) && Step(s, a) == Some(s')
    ensures Inv(s')
  {
    hide Inv, ThreadStep, BeginStep, ReapStep, ChildStep;
    match a
    case Begin(t, op) => BeginKeeps(s, t, op, s');
    case Act(t, ch) => ThreadStepKeeps(s, t, ch, s');
    case Reap(c) => ReapKeeps(s, c, s');
    case CancelContext => ClockStepKeeps(s, s');
    case Tick(_) => ClockStepKeeps(s, s');
    case _ => ChildStepKeeps(s, a, s');
  }

  lemma InitHolds(s: State)
    requires Init(s)
    ensures Inv(s)
  {
  }

  lemma {:induction false} RunKeeps(s: State, acts: seq<Action>, s': State)
    requires Inv(s) && Run(s, acts) == Some(s')
    ensures Inv(s')
    decreases |acts|
  {
    hide Inv, Step;
    if acts != [] {
      var before := Run(s, acts[..|acts| - 1]).value;
      RunKeeps(s, acts[..|acts| - 1], before);
      StepKeeps(before, acts[|acts| - 1], s');
    }
  }

  /** Every state of every run satisfies the invariant. */
  lemma ReachableInv(s: State)
    requires Reachable(s)
    ensures Inv(s)
  {
    hide Inv, Run;
    var s0: State, acts: seq<Action> :| Init(s0) && Run(s0, acts) == Some(s);
    InitHolds(s0);
    RunKeeps(s0, acts, s);
  }
}
