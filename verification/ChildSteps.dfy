/**
  Each step of a thread, program counter by program counter, does what `ChildFrames` asks of it: a step that
  passes no lock stays where it was in the lock order (`Stays`), and every step keeps what its thread knows.
*/
module ChildSteps {
  import opened Wrappers
  import opened ChildRecord
  import opened ChildLifecycle
  import opened ChildInvariant
  import opened ChildShapes
  import opened ChildFrames

  /** The step writes the record, or adds a child or marks it ready, or records the daemon context. */
  predicate TouchesWorld(s: State, pc: Pc, ch: Choice) {
    match pc
    case WantLife(use) => use.LifeForStart?
    case Spawn(_) => ch == Proceed
    case PublishChild(_, _) => true
    case WritePort(_, _, _) => true
    case ProbeStamp(kind) => kind.Poll?
    case StopBegin(_) => s.rec.cmd.Some?
    case StopEnd(_) => true
    case SuspendMark(was) => was
    case _ => false
  }

  // ----- steps that pass no lock -----

  /** The call stack holds the same locks; and a step that leaves the world alone keeps its holder's phase. */
  predicate Stays(s: State, t: ThreadId, ch: Choice, s': State)
    requires t in s.threads
  {
    && t in s'.threads && Held(s'.threads[t].pc) == Held(s.threads[t].pc)
    && (|| TouchesWorld(s, s.threads[t].pc, ch)
        || (SameWorld(s, s') && PhaseKept(s, s.threads[t].pc, s'.threads[t].pc)))
  }

  lemma ProbeEnds(kind: ProbeKind)
    ensures Held(ProbeMiss(kind)) == Held(ProbeHit(kind)) == HeldProbing(kind)
  {
  }

  lemma ProbePhase(kind: ProbeKind)
    ensures !StopMarking(ProbeMiss(kind)) && !StopWindowPc(ProbeMiss(kind)) && Unpublished(ProbeMiss(kind)) == None
    ensures !StopMarking(ProbeHit(kind)) && !StopWindowPc(ProbeHit(kind)) && Unpublished(ProbeHit(kind)) == None
    ensures kind.Poll? ==> InStarting(ProbeMiss(kind)) && InStarting(ProbeHit(kind))
  {
  }

  lemma StartEnds(from: StartCaller, ok: bool)
    ensures Held(StartReturn(from, ok)) == HeldStarting(from) && NoPhase(StartReturn(from, ok))
  {
  }

  lemma StopEnds(cause: StopCaller)
    ensures Held(StopReturn(cause)) == HeldStopping(cause)
    ensures !StopMarking(StopReturn(cause)) && Unpublished(StopReturn(cause)) == None
    ensures StopWindowPc(StopReturn(cause)) == (cause == ForSuspend(true))
  {
  }

  /** The sections that write, and the steps that change the children, are all under lifecycleMu. */
  lemma RecordUnderLife(pc: Pc)
    ensures pc.Spawn? || pc.PublishChild? || pc.WritePort? || pc.StopBegin? || pc.StopEnd? || pc.SuspendMark? ==>
              HoldsLife(pc)
    ensures pc.ProbeStamp? && pc.kind.Poll? ==> HoldsLife(pc)
  {
  }

  /** With the locks as they were, they are also where the new program counter wants them. */
  lemma StayLocks(s: State, t: ThreadId, ch: Choice, s': State)
    requires Knows(s, t) && Shape(s, t, s') && !PassesLock(s.threads[t].pc) && Stays(s, t, ch, s')
    ensures LocksMove(s, t, s') && (TouchesWorld(s, s.threads[t].pc, ch) || PhaseMoves(s, t, s'))
  {
    RecordUnderLife(s.threads[t].pc);
    hide Held, PcOk, TimedThread, HistoryKnown, SeenKnown, CmdReady, StaleSinceLastKill, FirstKept;
    hide TouchesWorld, PhaseKept;
  }

  // ----- EnsureStarted and restartIfDead -----

  lemma ContextChecked(s: State, t: ThreadId, ch: Choice, s': State)
    requires Knows(s, t) && EnsureStep(s, t) == Some(s')
    requires s.threads[t].pc.CheckContext?
    ensures Stays(s, t, ch, s') && NotesMove(s, t, s')
  {
    hide RecentlyAlive;
  }

  lemma NoChildFound(s: State, t: ThreadId, ch: Choice, s': State)
    requires Knows(s, t) && EnsureStep(s, t) == Some(s')
    requires s.threads[t].pc.ReadCmd? && s.rec.cmd == None
    ensures Stays(s, t, ch, s') && NotesMove(s, t, s')
  {
  }

  lemma ChildFound(s: State, t: ThreadId, ch: Choice, s': State)
    requires Knows(s, t) && EnsureStep(s, t) == Some(s')
    requires s.threads[t].pc.ReadCmd? && s.rec.cmd.Some?
    ensures Stays(s, t, ch, s') && NotesMove(s, t, s')
  {
  }

  lemma GraceAfterMiss(s: State, t: ThreadId, ch: Choice, s': State)
    requires Knows(s, t) && EnsureStep(s, t) == Some(s')
    requires s.threads[t].pc.QuickGrace?
    ensures Stays(s, t, ch, s') && NotesMove(s, t, s')
  {
  }

  lemma StillInGrace(s: State, t: ThreadId, ch: Choice, s': State)
    requires Knows(s, t) && EnsureStep(s, t) == Some(s')
    requires s.threads[t].pc.RestartGrace? && RecentlyAlive(s)
    ensures Stays(s, t, ch, s') && NotesMove(s, t, s')
  {
  }

  /** Whoever begins a verdict here does so long after the last kill. */
  lemma GraceOver(s: State, t: ThreadId, ch: Choice, s': State)
    requires Knows(s, t) && EnsureStep(s, t) == Some(s')
    requires s.threads[t].pc.RestartGrace? && !RecentlyAlive(s)
    ensures Stays(s, t, ch, s') && NotesMove(s, t, s')
  {
  }

  lemma CondemnedRead(s: State, t: ThreadId, ch: Choice, s': State)
    requires Knows(s, t) && EnsureStep(s, t) == Some(s')
    requires s.threads[t].pc.RestartReadCmd?
    ensures Stays(s, t, ch, s') && NotesMove(s, t, s')
  {
  }

  // ----- probes -----

  /** A missed probe, whatever it was for, leads on under the same locks. */
  lemma MissStays(s: State, t: ThreadId, ch: Choice, kind: ProbeKind, p: nat)
    requires t in s.threads && !TouchesWorld(s, s.threads[t].pc, ch)
    requires s.threads[t].pc == ProbeRead(kind) || s.threads[t].pc == ProbeWait(kind, p)
    ensures Stays(s, t, ch, Put(s, t, NoteMiss(s, t, kind, p)))
  {
    ProbeEnds(kind);
    ProbePhase(kind);
    hide ProbeMiss, HeldProbing, TouchesWorld;
  }

  /** The probe after the drain is missed: the child it was aimed at is condemned. */
  lemma VerdictMissed(s: State, t: ThreadId, kind: ProbeKind, p: nat)
    requires Knows(s, t) && kind.PostDrain?
    requires (s.threads[t].pc == ProbeRead(kind) && s.rec.port == 0) || s.threads[t].pc == ProbeWait(kind, p)
    ensures NotesMove(s, t, Put(s, t, NoteMiss(s, t, kind, p)))
  {
  }

  /** A poll of startLocked is missed, and will be tried again. */
  lemma PollMissed(s: State, t: ThreadId, kind: ProbeKind, p: nat)
    requires Knows(s, t) && kind.Poll?
    requires (s.threads[t].pc == ProbeRead(kind) && s.rec.port == 0) || s.threads[t].pc == ProbeWait(kind, p)
    ensures NotesMove(s, t, Put(s, t, NoteMiss(s, t, kind, p)))
  {
    hide SeenKnown, CmdReady, CmdKnown, StaleSinceLastKill;
  }

  /** A probe made for EnsureStarted decides nothing by itself. */
  lemma CallerMissed(s: State, t: ThreadId, kind: ProbeKind, p: nat)
    requires Knows(s, t) && (kind.Quick? || kind.Verdict?)
    requires (s.threads[t].pc == ProbeRead(kind) && s.rec.port == 0) || s.threads[t].pc == ProbeWait(kind, p)
    ensures NotesMove(s, t, Put(s, t, NoteMiss(s, t, kind, p)))
  {
    hide ThreadLocks, SeenKnown, CmdReady, CmdKnown, StaleSinceLastKill;
  }

  /** Nor does one made for Serving. */
  lemma ReportMissed(s: State, t: ThreadId, kind: ProbeKind, p: nat)
    requires Knows(s, t) && kind.Report?
    requires (s.threads[t].pc == ProbeRead(kind) && s.rec.port == 0) || s.threads[t].pc == ProbeWait(kind, p)
    ensures NotesMove(s, t, Put(s, t, NoteMiss(s, t, kind, p)))
  {
    hide ThreadLocks, SeenKnown, CmdReady, CmdKnown, StaleSinceLastKill;
  }

  /** Nor one for the idle ticker. */
  lemma TickMissed(s: State, t: ThreadId, kind: ProbeKind, p: nat)
    requires Knows(s, t) && kind.IdleCheck?
    requires (s.threads[t].pc == ProbeRead(kind) && s.rec.port == 0) || s.threads[t].pc == ProbeWait(kind, p)
    ensures NotesMove(s, t, Put(s, t, NoteMiss(s, t, kind, p)))
  {
    hide ThreadLocks, SeenKnown, CmdReady, CmdKnown, StaleSinceLastKill;
  }

  lemma Misses(s: State, t: ThreadId, ch: Choice, kind: ProbeKind, p: nat)
    requires Knows(s, t)
    requires (s.threads[t].pc == ProbeRead(kind) && s.rec.port == 0) || s.threads[t].pc == ProbeWait(kind, p)
    ensures var s' := Put(s, t, NoteMiss(s, t, kind, p)); Stays(s, t, ch, s') && NotesMove(s, t, s')
  {
    MissStays(s, t, ch, kind, p);
    assert t in s.threads;
    hide Knows, NotesMove, Stays, NoteMiss;
    match kind
    case PostDrain(_) => VerdictMissed(s, t, kind, p);
    case Poll(_, _) => PollMissed(s, t, kind, p);
    case Quick => CallerMissed(s, t, kind, p);
    case Verdict => CallerMissed(s, t, kind, p);
    case Report => ReportMissed(s, t, kind, p);
    case IdleCheck => TickMissed(s, t, kind, p);
  }

  lemma Aims(s: State, t: ThreadId, ch: Choice, s': State)
    requires Knows(s, t) && ProbeStep(s, t, ch) == Some(s')
    requires s.threads[t].pc.ProbeRead? && s.rec.port != 0
    ensures Stays(s, t, ch, s') && NotesMove(s, t, s')
  {
  }

  lemma Hits(s: State, t: ThreadId, ch: Choice, s': State)
    requires Knows(s, t) && ProbeStep(s, t, ch) == Some(s')
    requires s.threads[t].pc.ProbeWait? && ch == Proceed
    ensures Stays(s, t, ch, s') && NotesMove(s, t, s')
  {
    ProbeEnds(s.threads[t].pc.kind);
    hide HeldProbing, Listening;
  }

  lemma PollStamped(s: State, t: ThreadId, ch: Choice, s': State)
    requires Knows(s, t) && ProbeStep(s, t, ch) == Some(s')
    requires s.threads[t].pc.ProbeStamp? && s.threads[t].pc.kind.Poll?
    ensures Stays(s, t, ch, s') && NotesMove(s, t, s')
  {
    hide SeenKnown, CmdReady, StaleSinceLastKill;
  }

  lemma ReportStamped(s: State, t: ThreadId, ch: Choice, s': State)
    requires Knows(s, t) && ProbeStep(s, t, ch) == Some(s')
    requires s.threads[t].pc.ProbeStamp? && s.threads[t].pc.kind.Report?
    ensures Stays(s, t, ch, s') && NotesMove(s, t, s')
  {
    hide ThreadLocks, SeenKnown, CmdReady, CmdKnown, StaleSinceLastKill;
  }

  lemma TickStamped(s: State, t: ThreadId, ch: Choice, s': State)
    requires Knows(s, t) && ProbeStep(s, t, ch) == Some(s')
    requires s.threads[t].pc.ProbeStamp? && s.threads[t].pc.kind.IdleCheck?
    ensures Stays(s, t, ch, s') && NotesMove(s, t, s')
  {
    hide ThreadLocks, SeenKnown, CmdReady, CmdKnown, StaleSinceLastKill;
  }

  // ----- startLocked -----

  lemma Spawned(s: State, t: ThreadId, ch: Choice, s': State)
    requires Knows(s, t) && StartStep(s, t, ch) == Some(s')
    requires s.threads[t].pc.Spawn? && ch == Proceed
    ensures Stays(s, t, ch, s') && NotesMove(s, t, s')
  {
  }

  lemma SpawnFails(s: State, t: ThreadId, ch: Choice, s': State)
    requires Knows(s, t) && StartStep(s, t, ch) == Some(s')
    requires s.threads[t].pc.Spawn? && ch != Proceed
    ensures Stays(s, t, ch, s') && NotesMove(s, t, s')
  {
  }

  lemma Publishes(s: State, t: ThreadId, ch: Choice, s': State)
    requires Knows(s, t) && StartStep(s, t, ch) == Some(s')
    requires s.threads[t].pc.PublishChild?
    ensures Stays(s, t, ch, s') && NotesMove(s, t, s')
  {
  }

  lemma PortAnnounced(s: State, t: ThreadId, ch: Choice, s': State)
    requires Knows(s, t) && StartStep(s, t, ch) == Some(s')
    requires s.threads[t].pc.WaitPort? && ch == Proceed
    ensures Stays(s, t, ch, s') && NotesMove(s, t, s')
  {
  }

  lemma LogClosed(s: State, t: ThreadId, ch: Choice, s': State)
    requires Knows(s, t) && StartStep(s, t, ch) == Some(s')
    requires s.threads[t].pc.WaitPort? && ch == Refuse
    ensures Stays(s, t, ch, s') && NotesMove(s, t, s')
  {
  }

  lemma StartCancelled(s: State, t: ThreadId, ch: Choice, s': State)
    requires Knows(s, t) && StartStep(s, t, ch) == Some(s')
    requires s.threads[t].pc.WaitPort? && ch == Expire
    ensures Stays(s, t, ch, s') && NotesMove(s, t, s')
  {
  }

  lemma WritesPort(s: State, t: ThreadId, ch: Choice, s': State)
    requires Knows(s, t) && StartStep(s, t, ch) == Some(s')
    requires s.threads[t].pc.WritePort?
    ensures Stays(s, t, ch, s') && NotesMove(s, t, s')
  {
  }

  lemma PollsAgain(s: State, t: ThreadId, ch: Choice, s': State)
    requires Knows(s, t) && StartStep(s, t, ch) == Some(s')
    requires s.threads[t].pc.PollWait? && ch == Proceed
    ensures Stays(s, t, ch, s') && NotesMove(s, t, s')
  {
  }

  lemma PollLogClosed(s: State, t: ThreadId, ch: Choice, s': State)
    requires Knows(s, t) && StartStep(s, t, ch) == Some(s')
    requires s.threads[t].pc.PollWait? && ch == Refuse
    ensures Stays(s, t, ch, s') && NotesMove(s, t, s')
  {
  }

  lemma PollExpires(s: State, t: ThreadId, ch: Choice, s': State)
    requires Knows(s, t) && StartStep(s, t, ch) == Some(s')
    requires s.threads[t].pc.PollWait? && ch == Expire
    ensures Stays(s, t, ch, s') && NotesMove(s, t, s')
  {
    hide HeldStarting;
    hide SeenKnown, CmdReady, CmdKnown, StaleSinceLastKill;
  }

  lemma DoneAwaited(s: State, t: ThreadId, ch: Choice, s': State)
    requires Knows(s, t) && StartStep(s, t, ch) == Some(s')
    requires s.threads[t].pc.AwaitDone?
    ensures Stays(s, t, ch, s') && NotesMove(s, t, s')
  {
  }

  // ----- Stop and stopLocked -----

  lemma StopReads(s: State, t: ThreadId, ch: Choice, s': State)
    requires Knows(s, t) && StopStep(s, t, ch) == Some(s')
    requires s.threads[t].pc.StopReadCmd?
    ensures Stays(s, t, ch, s') && NotesMove(s, t, s')
  {
  }

  lemma MarksStop(s: State, t: ThreadId, ch: Choice, s': State)
    requires Knows(s, t) && StopStep(s, t, ch) == Some(s')
    requires s.threads[t].pc.StopBegin? && s.rec.cmd.Some?
    ensures Stays(s, t, ch, s') && NotesMove(s, t, s')
  {
  }

  lemma FindsNothingToStop(s: State, t: ThreadId, ch: Choice, s': State)
    requires Knows(s, t) && StopStep(s, t, ch) == Some(s')
    requires s.threads[t].pc.StopBegin? && s.rec.cmd == None
    ensures Stays(s, t, ch, s') && NotesMove(s, t, s')
  {
    StopEnds(s.threads[t].pc.cause);
    hide HeldStopping, CmdReady, StaleSinceLastKill;
  }

  lemma Signals(s: State, t: ThreadId, ch: Choice, s': State)
    requires Knows(s, t) && StopStep(s, t, ch) == Some(s')
    requires s.threads[t].pc.Signal? && !s.threads[t].pc.cause.ForVerdict?
    ensures Stays(s, t, ch, s') && NotesMove(s, t, s')
  {
  }

  /** The verdict kill, and its place in the history of kills. */
  lemma VerdictKills(s: State, t: ThreadId, ch: Choice, s': State)
    requires Knows(s, t) && StopStep(s, t, ch) == Some(s')
    requires s.threads[t].pc.Signal? && s.threads[t].pc.cause.ForVerdict?
    ensures Stays(s, t, ch, s') && NotesMove(s, t, s')
  {
  }

  lemma StopExpires(s: State, t: ThreadId, ch: Choice, s': State)
    requires Knows(s, t) && StopStep(s, t, ch) == Some(s')
    requires s.threads[t].pc.StopWait? && ch == Expire
    ensures Stays(s, t, ch, s') && NotesMove(s, t, s')
  {
  }

  lemma StopWaited(s: State, t: ThreadId, ch: Choice, s': State)
    requires Knows(s, t) && StopStep(s, t, ch) == Some(s')
    requires s.threads[t].pc.StopWait? && ch != Expire
    ensures Stays(s, t, ch, s') && NotesMove(s, t, s')
  {
  }

  lemma KillWaited(s: State, t: ThreadId, ch: Choice, s': State)
    requires Knows(s, t) && StopStep(s, t, ch) == Some(s')
    requires s.threads[t].pc.KillWait?
    ensures Stays(s, t, ch, s') && NotesMove(s, t, s')
  {
  }

  lemma StopEndStays(s: State, t: ThreadId, ch: Choice, s': State)
    requires Knows(s, t) && StopStep(s, t, ch) == Some(s')
    requires s.threads[t].pc.StopEnd?
    ensures Stays(s, t, ch, s')
  {
    StopEnds(s.threads[t].pc.cause);
    hide PcOk, ThreadLocks, TimedThread, HistoryKnown, SeenKnown, CmdReady, CmdKnown, StaleSinceLastKill;
    hide StopReturn, HeldStopping;
  }

  lemma StopEndNotes(s: State, t: ThreadId, ch: Choice, s': State)
    requires Knows(s, t) && StopStep(s, t, ch) == Some(s')
    requires s.threads[t].pc.StopEnd?
    ensures t in s'.threads && NotesMove(s, t, s')
  {
    StopEnds(s.threads[t].pc.cause);
    hide HeldStopping, CmdReady, StaleSinceLastKill;
  }

  lemma MarksSuspended(s: State, t: ThreadId, ch: Choice, s': State)
    requires Knows(s, t) && StopStep(s, t, ch) == Some(s')
    requires s.threads[t].pc.SuspendMark?
    ensures Stays(s, t, ch, s') && NotesMove(s, t, s')
  {
  }

  // ----- embeds and Serving -----

  lemma PortRead(s: State, t: ThreadId, ch: Choice, s': State)
    requires Knows(s, t) && EmbedStep(s, t, ch) == Some(s')
    requires s.threads[t].pc.ReadPort? && s.rec.port != 0
    ensures Stays(s, t, ch, s') && NotesMove(s, t, s')
  {
  }

  /** A port of zero means that the child this attempt had found or started is gone. */
  lemma ChildLost(s: State, t: ThreadId, ch: Choice, s': State)
    requires Knows(s, t) && EmbedStep(s, t, ch) == Some(s')
    requires s.threads[t].pc.ReadPort? && s.rec.port == 0
    ensures Stays(s, t, ch, s') && NotesMove(s, t, s')
  {
  }

  lemma CallAnswered(s: State, t: ThreadId, ch: Choice, s': State)
    requires Knows(s, t) && EmbedStep(s, t, ch) == Some(s')
    requires s.threads[t].pc.Calling? && ch == Proceed
    ensures Stays(s, t, ch, s') && NotesMove(s, t, s')
  {
    hide Listening;
  }

  lemma CallFails(s: State, t: ThreadId, ch: Choice, s': State)
    requires Knows(s, t) && EmbedStep(s, t, ch) == Some(s')
    requires s.threads[t].pc.Calling? && ch != Proceed
    ensures Stays(s, t, ch, s') && NotesMove(s, t, s')
  {
    hide Listening;
  }

  lemma CallStamped(s: State, t: ThreadId, ch: Choice, s': State)
    requires Knows(s, t) && EmbedStep(s, t, ch) == Some(s')
    requires s.threads[t].pc.CallStamp?
    ensures Stays(s, t, ch, s') && NotesMove(s, t, s')
  {
  }

  lemma ServingReads(s: State, t: ThreadId, ch: Choice, s': State)
    requires Knows(s, t) && EmbedStep(s, t, ch) == Some(s')
    requires s.threads[t].pc.ServeRead?
    ensures Stays(s, t, ch, s') && NotesMove(s, t, s')
  {
    hide ThreadLocks, SeenKnown, CmdReady, CmdKnown, StaleSinceLastKill;
  }

  lemma ServingGrace(s: State, t: ThreadId, ch: Choice, s': State)
    requires Knows(s, t) && EmbedStep(s, t, ch) == Some(s')
    requires s.threads[t].pc.ServeGrace?
    ensures Stays(s, t, ch, s') && NotesMove(s, t, s')
  {
    hide RecentlyAlive, KillMade;
    hide ThreadLocks, SeenKnown, CmdReady, CmdKnown, StaleSinceLastKill;
  }

  // ----- the locks -----

  /** Start takes lifecycleMu and records the daemon context. */
  lemma TakeLifeForStart(s: State, t: ThreadId, ch: Choice, s': State)
    requires Knows(s, t) && LockStep(s, t) == Some(s')
    requires s.threads[t].pc.WantLife? && s.threads[t].pc.use.LifeForStart?
    ensures LocksMove(s, t, s') && NotesMove(s, t, s')
  {
  }

  lemma TakeLifeLocks(s: State, t: ThreadId, ch: Choice, s': State)
    requires Knows(s, t) && LockStep(s, t) == Some(s')
    requires s.threads[t].pc.WantLife? && !s.threads[t].pc.use.LifeForStart?
    ensures LocksMove(s, t, s') && PhaseMoves(s, t, s')
  {
    hide PcOk, TimedThread, HistoryKnown, SeenKnown, CmdReady, CmdKnown, StaleSinceLastKill;
  }

  lemma TakeLifeNotes(s: State, t: ThreadId, ch: Choice, s': State)
    requires Knows(s, t) && LockStep(s, t) == Some(s')
    requires s.threads[t].pc.WantLife? && !s.threads[t].pc.use.LifeForStart?
    ensures t in s'.threads && NotesMove(s, t, s')
  {
    hide ThreadLocks, SeenKnown, CmdReady, CmdKnown, StaleSinceLastKill;
  }

  lemma LeaveWriterLocks(s: State, t: ThreadId, ch: Choice, s': State)
    requires Knows(s, t) && LockStep(s, t) == Some(s')
    requires s.threads[t].pc.DropWriter?
    ensures LocksMove(s, t, s') && PhaseMoves(s, t, s')
  {
    hide PcOk, TimedThread, HistoryKnown, SeenKnown, CmdReady, CmdKnown, StaleSinceLastKill;
  }

  lemma LeaveWriterNotes(s: State, t: ThreadId, ch: Choice, s': State)
    requires Knows(s, t) && LockStep(s, t) == Some(s')
    requires s.threads[t].pc.DropWriter?
    ensures t in s'.threads && NotesMove(s, t, s')
  {
    hide ThreadLocks, SeenKnown, CmdReady, CmdKnown, StaleSinceLastKill;
  }

  lemma TakeRestart(s: State, t: ThreadId, ch: Choice, s': State)
    requires Knows(s, t) && LockStep(s, t) == Some(s')
    requires s.threads[t].pc.WantRestart?
    ensures LocksMove(s, t, s') && PhaseMoves(s, t, s') && NotesMove(s, t, s')
  {
    hide SeenKnown, CmdReady, CmdKnown, StaleSinceLastKill, KillMade;
  }

  lemma TakeWriter(s: State, t: ThreadId, ch: Choice, s': State)
    requires Knows(s, t) && LockStep(s, t) == Some(s')
    requires s.threads[t].pc.WantWriter?
    ensures LocksMove(s, t, s') && PhaseMoves(s, t, s') && NotesMove(s, t, s')
  {
    hide SeenKnown, CmdReady, CmdKnown, StaleSinceLastKill, KillMade;
  }

  lemma FinishDrain(s: State, t: ThreadId, ch: Choice, s': State)
    requires Knows(s, t) && LockStep(s, t) == Some(s')
    requires s.threads[t].pc.Draining?
    ensures LocksMove(s, t, s') && PhaseMoves(s, t, s') && NotesMove(s, t, s')
  {
    hide SeenKnown, CmdReady, CmdKnown, StaleSinceLastKill, KillMade;
  }

  lemma TakeReadLocks(s: State, t: ThreadId, ch: Choice, s': State)
    requires Knows(s, t) && LockStep(s, t) == Some(s')
    requires s.threads[t].pc.WantRead?
    ensures LocksMove(s, t, s') && PhaseMoves(s, t, s')
  {
    hide PcOk, TimedThread, HistoryKnown, SeenKnown, CmdReady, CmdKnown, StaleSinceLastKill;
  }

  lemma TakeReadNotes(s: State, t: ThreadId, ch: Choice, s': State)
    requires Knows(s, t) && LockStep(s, t) == Some(s')
    requires s.threads[t].pc.WantRead?
    ensures t in s'.threads && NotesMove(s, t, s')
  {
    hide ThreadLocks, SeenKnown, CmdReady, CmdKnown, StaleSinceLastKill;
  }

  lemma EnsureEnds(op: Op, ok: bool)
    ensures Held(EnsureReturn(op, ok)).Nothing? && NoPhase(EnsureReturn(op, ok))
  {
  }

  lemma DropRestartLocks(s: State, t: ThreadId, ch: Choice, s': State)
    requires Knows(s, t) && LockStep(s, t) == Some(s')
    requires s.threads[t].pc.DropRestart?
    ensures LocksMove(s, t, s') && PhaseMoves(s, t, s')
  {
    EnsureEnds(s.threads[t].op, s.threads[t].pc.ok);
    hide EnsureReturn;
    hide PcOk, TimedThread, HistoryKnown, SeenKnown, CmdReady, CmdKnown, StaleSinceLastKill;
  }

  lemma DropRestartNotes(s: State, t: ThreadId, ch: Choice, s': State)
    requires Knows(s, t) && LockStep(s, t) == Some(s')
    requires s.threads[t].pc.DropRestart?
    ensures t in s'.threads && NotesMove(s, t, s')
  {
    hide ThreadLocks, SeenKnown, CmdReady, CmdKnown, StaleSinceLastKill;
  }

  lemma DropLifeLocks(s: State, t: ThreadId, ch: Choice, s': State)
    requires Knows(s, t) && LockStep(s, t) == Some(s')
    requires s.threads[t].pc.DropLife?
    ensures LocksMove(s, t, s') && PhaseMoves(s, t, s')
  {
    hide PcOk, TimedThread, HistoryKnown, SeenKnown, CmdReady, CmdKnown, StaleSinceLastKill;
  }

  lemma DropLifeNotes(s: State, t: ThreadId, ch: Choice, s': State)
    requires Knows(s, t) && LockStep(s, t) == Some(s')
    requires s.threads[t].pc.DropLife?
    ensures t in s'.threads && NotesMove(s, t, s')
  {
    hide ThreadLocks, SeenKnown, CmdReady, CmdKnown, StaleSinceLastKill;
  }

  lemma ReadEnds(th: Thread, res: EmbedResult)
    ensures var th' := AfterRead(th, res);
            th'.op == th.op && th'.rlockAt == th.rlockAt && Held(th'.pc).Nothing? && NoPhase(th'.pc)
    ensures NoPhase(DropRead(res))
  {
  }

  lemma DropReadLocks(s: State, t: ThreadId, ch: Choice, s': State)
    requires Knows(s, t) && EmbedStep(s, t, ch) == Some(s')
    requires s.threads[t].pc.DropRead?
    ensures LocksMove(s, t, s') && PhaseMoves(s, t, s')
  {
    ReadEnds(s.threads[t], s.threads[t].pc.res);
    hide AfterRead;
    hide PcOk, TimedThread, HistoryKnown, SeenKnown, CmdReady, CmdKnown, StaleSinceLastKill;
  }

  lemma EmbedAnswered(s: State, t: ThreadId, ch: Choice, s': State)
    requires Knows(s, t) && EmbedStep(s, t, ch) == Some(s')
    requires s.threads[t].pc.DropRead? && s.threads[t].pc.res.EmbedOk?
    ensures t in s'.threads && NotesMove(s, t, s')
  {
    hide ThreadLocks, SeenKnown, CmdReady, CmdKnown, StaleSinceLastKill;
  }

  lemma EmbedFails(s: State, t: ThreadId, ch: Choice, s': State)
    requires Knows(s, t) && EmbedStep(s, t, ch) == Some(s')
    requires s.threads[t].pc.DropRead? && s.threads[t].pc.res.EmbedError?
    ensures t in s'.threads && NotesMove(s, t, s')
  {
    hide ThreadLocks, SeenKnown, CmdReady, CmdKnown, StaleSinceLastKill;
  }

  lemma AttemptCounted(s: State, t: ThreadId, ch: Choice, s': State)
    requires Knows(s, t) && EmbedStep(s, t, ch) == Some(s')
    requires s.threads[t].pc.DropRead? && s.threads[t].pc.res.EmbedNotStarted?
    ensures t in s'.threads && NotesMove(s, t, s')
  {
    hide ThreadLocks, SeenKnown, CmdReady, CmdKnown, StaleSinceLastKill;
  }
}
