/** What a step of one thread can change at all, program counter by program counter. */
module ChildShapes {
  import opened Wrappers
  import opened ChildRecord
  import opened ChildLifecycle

  /** What the sections under `mu` make of the record; every other program counter leaves it alone. */
  function SectionResult(r: Record, pc: Pc): Record {
    match pc
    case PublishChild(_, c) => Published(r, c)
    case WritePort(_, _, p) => r.(port := p)
    case StopBegin(_) => StopMarked(r)
    case StopEnd(_) => r.(stopping := false)
    case SuspendMark(was) => if was then r.(state := ChildSuspended) else r
    case _ => r
  }

  /** The read lock is left as it was, given back, or taken now. */
  predicate ReadLockMoves(s: State, t: ThreadId, s': State)
    requires t in s.threads && t in s'.threads
  {
    || (s'.threads[t].rlockAt == s.threads[t].rlockAt && (s'.readers == s.readers || s'.readers == s.readers - {t}))
    || (s'.threads[t].rlockAt == s.now && s'.readers == s.readers + {t})
  }

  /** A child is added by its spawn, and becomes ready by the stamp that ends its poll. */
  predicate KidsMove(s: State, pc: Pc, s': State) {
    || s'.kids == s.kids
    || (pc.Spawn? && s'.kids == s.kids + [Child(None, false, false, false, false, false)])
    || (pc.ProbeStamp? && s'.kids == MarkReady(s.kids, pc.kind))
  }

  predicate SameLocks(s: State, s': State) {
    && s'.life == s.life && s'.restart == s.restart && s'.writer == s.writer
    && s'.drained == s.drained && s'.readers == s.readers && s'.pendingSince == s.pendingSince
  }

  /** The step passes a lock. */
  predicate PassesLock(pc: Pc) {
    pc.WantLife? || pc.WantRestart? || pc.WantWriter? || pc.Draining? || pc.DropLife? || pc.DropWriter?
    || pc.DropRestart? || pc.WantRead? || pc.DropRead?
  }

  /** What no step of a thread touches but the one named. */
  predicate RestStays(s: State, pc: Pc, s': State) {
    && s'.now == s.now && s'.starter == s.starter && s'.reaped == s.reaped && s.failedRestarts <= s'.failedRestarts
    && (s'.ctxSet == s.ctxSet || (pc.WantLife? && pc.use.LifeForStart?))
    && (s'.lastPublished == s.lastPublished || pc.PublishChild?)
    && s'.lastAlive == (if pc.CallStamp? || pc.ProbeStamp? then s.now else s.lastAlive)
  }

  /** Inside the startLocked that Start calls. */
  predicate FirstStart(pc: Pc) {
    || ((pc.Spawn? || pc.PublishChild? || pc.WaitPort? || pc.WritePort? || pc.PollWait? || pc.AwaitDone?)
        && pc.from.ByStart?)
    || ((pc.ProbeRead? || pc.ProbeWait? || pc.ProbeStamp?) && pc.kind.Poll? && pc.kind.from.ByStart?)
    || ((pc.StopBegin? || pc.Signal? || pc.StopWait? || pc.KillWait? || pc.StopEnd?)
        && pc.cause.ForCleanup? && pc.cause.from.ByStart?)
  }

  /** A thread gets inside Start's startLocked only by taking lifecycleMu for it; the stamp ends it. */
  predicate FirstKept(pc: Pc, pc': Pc) {
    && (FirstStart(pc') ==> FirstStart(pc) || (pc.WantLife? && pc.use.LifeForStart?))
    && (pc.ProbeStamp? ==> !FirstStart(pc'))
  }

  /** Only thread `t` moves: it keeps its identity, no time passes, and the record changes as its section says. */
  predicate Shape(s: State, t: ThreadId, s': State)
    requires t in s.threads
  {
    && t in s'.threads && s'.threads == s.threads[t := s'.threads[t]]
    && s'.threads[t].op == s.threads[t].op && s'.threads[t].before == s.threads[t].before
    && RestStays(s, s.threads[t].pc, s') && ReadLockMoves(s, t, s') && FirstKept(s.threads[t].pc, s'.threads[t].pc)
    && (PassesLock(s.threads[t].pc) || (SameLocks(s, s') && s'.threads[t].rlockAt == s.threads[t].rlockAt))
    && s'.rec == SectionResult(s.rec, s.threads[t].pc) && KidsMove(s, s.threads[t].pc, s')
  }

  lemma LocksLeadOutside()
    ensures forall use :: FirstStart(UnderLife(use)) ==> use.LifeForStart?
    ensures forall op, exit :: !FirstStart(AfterLife(op, exit))
    ensures forall exit :: !FirstStart(AfterWriter(exit))
    ensures forall op, ok :: !FirstStart(EnsureReturn(op, ok))
  {
  }

  lemma ReturnsLeadOutside()
    ensures forall th, res :: !FirstStart(AfterRead(th, res).pc)
    ensures forall from, ok :: !FirstStart(StartReturn(from, ok))
    ensures forall cause :: !FirstStart(StopReturn(cause))
  {
  }

  lemma ProbesLeadOutside()
    ensures forall k :: FirstStart(ProbeMiss(k)) ==> k.Poll? && k.from.ByStart?
    ensures forall k :: FirstStart(ProbeHit(k)) ==> k.Poll? && k.from.ByStart?
    ensures forall th, k :: AfterStamp(th, k).Some? ==> !FirstStart(AfterStamp(th, k).value.pc)
  {
  }

  lemma MissIsNoted(s: State, t: ThreadId, kind: ProbeKind, p: nat)
    requires t in s.threads
    ensures var th, th' := s.threads[t], NoteMiss(s, t, kind, p);
            th'.op == th.op && th'.before == th.before && th'.rlockAt == th.rlockAt && th'.pc == ProbeMiss(kind)
  {
  }

  lemma TakeLockShape(s: State, t: ThreadId, s': State)
    requires t in s.threads && LockStep(s, t) == Some(s')
    requires s.threads[t].pc.WantLife? || s.threads[t].pc.WantRestart? || s.threads[t].pc.WantWriter?
    ensures Shape(s, t, s')
  {
    LocksLeadOutside();
    hide StartReturn, StopReturn, EnsureReturn, UnderLife, AfterLife, AfterWriter, ProbeMiss, ProbeHit, MarkReady,
        RecentlyAlive, Published, Listening;
    match s.threads[t].pc
    case WantLife(_) =>
    case WantRestart =>
    case WantWriter(_) =>
  }

  lemma DrainShape(s: State, t: ThreadId, s': State)
    requires t in s.threads && LockStep(s, t) == Some(s')
    requires s.threads[t].pc.Draining? || s.threads[t].pc.WantRead?
    ensures Shape(s, t, s')
  {
    hide StartReturn, StopReturn, EnsureReturn, UnderLife, AfterLife, AfterWriter, ProbeMiss, ProbeHit, MarkReady,
        RecentlyAlive, Published, Listening;
    match s.threads[t].pc
    case Draining(_) =>
    case WantRead =>
  }

  lemma DropLockShape(s: State, t: ThreadId, s': State)
    requires t in s.threads && LockStep(s, t) == Some(s')
    requires s.threads[t].pc.DropLife? || s.threads[t].pc.DropWriter? || s.threads[t].pc.DropRestart?
    ensures Shape(s, t, s')
  {
    LocksLeadOutside();
    hide StartReturn, StopReturn, EnsureReturn, UnderLife, AfterLife, AfterWriter, ProbeMiss, ProbeHit, MarkReady,
        RecentlyAlive, Published, Listening;
    match s.threads[t].pc
    case DropLife(_) =>
    case DropWriter(_) =>
    case DropRestart(_) =>
  }

  lemma EnsureShape(s: State, t: ThreadId, s': State)
    requires t in s.threads && EnsureStep(s, t) == Some(s')
    requires s.threads[t].pc.CheckContext? || s.threads[t].pc.QuickGrace? || s.threads[t].pc.RestartReadCmd?
    ensures Shape(s, t, s')
  {
    hide StartReturn, StopReturn, EnsureReturn, UnderLife, AfterLife, AfterWriter, ProbeMiss, ProbeHit, MarkReady,
        RecentlyAlive, Published, Listening;
    match s.threads[t].pc
    case CheckContext =>
    case QuickGrace =>
    case RestartReadCmd =>
  }

  lemma ReadCmdShape(s: State, t: ThreadId, s': State)
    requires t in s.threads && EnsureStep(s, t) == Some(s')
    requires s.threads[t].pc.ReadCmd? && s.rec.cmd == None
    ensures Shape(s, t, s')
  {
    hide StartReturn, StopReturn, EnsureReturn, UnderLife, AfterLife, AfterWriter, ProbeMiss, ProbeHit, MarkReady,
        RecentlyAlive, Published, Listening;
  }

  lemma FoundCmdShape(s: State, t: ThreadId, s': State)
    requires t in s.threads && EnsureStep(s, t) == Some(s')
    requires s.threads[t].pc.ReadCmd? && s.rec.cmd.Some?
    ensures Shape(s, t, s')
  {
    hide StartReturn, StopReturn, EnsureReturn, UnderLife, AfterLife, AfterWriter, ProbeMiss, ProbeHit, MarkReady,
        RecentlyAlive, Published, Listening;
  }

  lemma GraceShape(s: State, t: ThreadId, s': State)
    requires t in s.threads && EnsureStep(s, t) == Some(s')
    requires s.threads[t].pc.RestartGrace?
    ensures Shape(s, t, s')
  {
    hide StartReturn, StopReturn, EnsureReturn, UnderLife, AfterLife, AfterWriter, ProbeMiss, ProbeHit, MarkReady,
        RecentlyAlive, Published, Listening;
  }

  lemma ProbeShape(s: State, t: ThreadId, ch: Choice, s': State)
    requires t in s.threads && ProbeStep(s, t, ch) == Some(s')
    requires s.threads[t].pc.ProbeRead?
    ensures Shape(s, t, s')
  {
    ProbesLeadOutside();
    MissIsNoted(s, t, s.threads[t].pc.kind, 0);
    hide NoteMiss;
    hide StartReturn, StopReturn, EnsureReturn, UnderLife, AfterLife, AfterWriter, ProbeMiss, ProbeHit, MarkReady,
        RecentlyAlive, Published, Listening;
  }

  lemma AnswerShape(s: State, t: ThreadId, ch: Choice, s': State)
    requires t in s.threads && ProbeStep(s, t, ch) == Some(s')
    requires s.threads[t].pc.ProbeWait?
    ensures Shape(s, t, s')
  {
    ProbesLeadOutside();
    hide StartReturn, StopReturn, EnsureReturn, UnderLife, AfterLife, AfterWriter, ProbeMiss, ProbeHit, MarkReady,
        RecentlyAlive, Published, Listening;
  }

  lemma StampShape(s: State, t: ThreadId, ch: Choice, s': State)
    requires t in s.threads && ProbeStep(s, t, ch) == Some(s')
    requires s.threads[t].pc.ProbeStamp?
    ensures Shape(s, t, s')
  {
    ProbesLeadOutside();
    hide StartReturn, StopReturn, EnsureReturn, UnderLife, AfterLife, AfterWriter, ProbeMiss, ProbeHit, MarkReady,
        RecentlyAlive, Published, Listening;
  }

  lemma SpawnShape(s: State, t: ThreadId, ch: Choice, s': State)
    requires t in s.threads && StartStep(s, t, ch) == Some(s')
    requires s.threads[t].pc.Spawn? || s.threads[t].pc.PublishChild?
    ensures Shape(s, t, s')
  {
    ReturnsLeadOutside();
    hide StartReturn, StopReturn, EnsureReturn, UnderLife, AfterLife, AfterWriter, ProbeMiss, ProbeHit, MarkReady,
        RecentlyAlive, Published, Listening;
    match s.threads[t].pc
    case Spawn(_) =>
    case PublishChild(_, _) =>
  }

  lemma PortShape(s: State, t: ThreadId, ch: Choice, s': State)
    requires t in s.threads && StartStep(s, t, ch) == Some(s')
    requires s.threads[t].pc.WaitPort? || s.threads[t].pc.WritePort?
    ensures Shape(s, t, s')
  {
    ReturnsLeadOutside();
    hide StartReturn, StopReturn, EnsureReturn, UnderLife, AfterLife, AfterWriter, ProbeMiss, ProbeHit, MarkReady,
        RecentlyAlive, Published, Listening;
    match s.threads[t].pc
    case WaitPort(_, _) =>
    case WritePort(_, _, _) =>
  }

  lemma PollShape(s: State, t: ThreadId, ch: Choice, s': State)
    requires t in s.threads && StartStep(s, t, ch) == Some(s')
    requires s.threads[t].pc.PollWait? || s.threads[t].pc.AwaitDone?
    ensures Shape(s, t, s')
  {
    ReturnsLeadOutside();
    hide StartReturn, StopReturn, EnsureReturn, UnderLife, AfterLife, AfterWriter, ProbeMiss, ProbeHit, MarkReady,
        RecentlyAlive, Published, Listening;
    match s.threads[t].pc
    case PollWait(_, _) =>
    case AwaitDone(_, _) =>
  }

  lemma StopBeginShape(s: State, t: ThreadId, ch: Choice, s': State)
    requires t in s.threads && StopStep(s, t, ch) == Some(s')
    requires s.threads[t].pc.StopReadCmd? || s.threads[t].pc.StopBegin?
    ensures Shape(s, t, s')
  {
    ReturnsLeadOutside();
    hide StartReturn, StopReturn, EnsureReturn, UnderLife, AfterLife, AfterWriter, ProbeMiss, ProbeHit, MarkReady,
        RecentlyAlive, Published, Listening;
    match s.threads[t].pc
    case StopReadCmd =>
    case StopBegin(_) =>
  }

  lemma SignalShape(s: State, t: ThreadId, ch: Choice, s': State)
    requires t in s.threads && StopStep(s, t, ch) == Some(s')
    requires s.threads[t].pc.Signal?
    ensures Shape(s, t, s')
  {
    hide StartReturn, StopReturn, EnsureReturn, UnderLife, AfterLife, AfterWriter, ProbeMiss, ProbeHit, MarkReady,
        RecentlyAlive, Published, Listening;
  }

  lemma StopWaitShape(s: State, t: ThreadId, ch: Choice, s': State)
    requires t in s.threads && StopStep(s, t, ch) == Some(s')
    requires s.threads[t].pc.StopWait? || s.threads[t].pc.KillWait?
    ensures Shape(s, t, s')
  {
    hide StartReturn, StopReturn, EnsureReturn, UnderLife, AfterLife, AfterWriter, ProbeMiss, ProbeHit, MarkReady,
        RecentlyAlive, Published, Listening;
    match s.threads[t].pc
    case StopWait(_, _, _) =>
    case KillWait(_, _, _) =>
  }

  lemma StopEndShape(s: State, t: ThreadId, ch: Choice, s': State)
    requires t in s.threads && StopStep(s, t, ch) == Some(s')
    requires s.threads[t].pc.StopEnd? || s.threads[t].pc.SuspendMark?
    ensures Shape(s, t, s')
  {
    ReturnsLeadOutside();
    hide StartReturn, StopReturn, EnsureReturn, UnderLife, AfterLife, AfterWriter, ProbeMiss, ProbeHit, MarkReady,
        RecentlyAlive, Published, Listening;
    match s.threads[t].pc
    case StopEnd(_) =>
    case SuspendMark(_) =>
  }

  lemma ReadPortShape(s: State, t: ThreadId, ch: Choice, s': State)
    requires t in s.threads && EmbedStep(s, t, ch) == Some(s')
    requires s.threads[t].pc.ReadPort?
    ensures Shape(s, t, s')
  {
    hide StartReturn, StopReturn, EnsureReturn, UnderLife, AfterLife, AfterWriter, ProbeMiss, ProbeHit, MarkReady,
        RecentlyAlive, Published, Listening;
  }

  lemma EmbedShape(s: State, t: ThreadId, ch: Choice, s': State)
    requires t in s.threads && EmbedStep(s, t, ch) == Some(s')
    requires s.threads[t].pc.Calling? || s.threads[t].pc.CallStamp? || s.threads[t].pc.DropRead?
    ensures Shape(s, t, s')
  {
    ReturnsLeadOutside();
    hide StartReturn, StopReturn, EnsureReturn, UnderLife, AfterLife, AfterWriter, ProbeMiss, ProbeHit, MarkReady,
        RecentlyAlive, Published, Listening;
    match s.threads[t].pc
    case Calling(_) =>
    case CallStamp =>
    case DropRead(_) =>
  }

  lemma ServeShape(s: State, t: ThreadId, ch: Choice, s': State)
    requires t in s.threads && EmbedStep(s, t, ch) == Some(s')
    requires s.threads[t].pc.ServeRead? || s.threads[t].pc.ServeGrace?
    ensures Shape(s, t, s')
  {
    ReturnsLeadOutside();
    hide StartReturn, StopReturn, EnsureReturn, UnderLife, AfterLife, AfterWriter, ProbeMiss, ProbeHit, MarkReady,
        RecentlyAlive, Published, Listening;
    match s.threads[t].pc
    case ServeRead =>
    case ServeGrace =>
  }

  lemma StepShape(s: State, t: ThreadId, ch: Choice, s': State)
    requires t in s.threads && ThreadStep(s, t, ch) == Some(s')
    ensures Shape(s, t, s')
  {
    hide LockStep, EnsureStep, ProbeStep, StartStep, StopStep, EmbedStep, Shape;
    match s.threads[t].pc
    case WantLife(_) => TakeLockShape(s, t, s');
    case WantRestart => TakeLockShape(s, t, s');
    case WantWriter(_) => TakeLockShape(s, t, s');
    case Draining(_) => DrainShape(s, t, s');
    case WantRead => DrainShape(s, t, s');
    case DropLife(_) => DropLockShape(s, t, s');
    case DropWriter(_) => DropLockShape(s, t, s');
    case DropRestart(_) => DropLockShape(s, t, s');
    case CheckContext => EnsureShape(s, t, s');
    case ReadCmd =>
      if s.rec.cmd == None { ReadCmdShape(s, t, s'); } else { FoundCmdShape(s, t, s'); }
    case QuickGrace => EnsureShape(s, t, s');
    case RestartGrace => GraceShape(s, t, s');
    case RestartReadCmd => EnsureShape(s, t, s');
    case ProbeRead(_) => ProbeShape(s, t, ch, s');
    case ProbeWait(_, _) => AnswerShape(s, t, ch, s');
    case ProbeStamp(_) => StampShape(s, t, ch, s');
    case Spawn(_) => SpawnShape(s, t, ch, s');
    case PublishChild(_, _) => SpawnShape(s, t, ch, s');
    case WaitPort(_, _) => PortShape(s, t, ch, s');
    case WritePort(_, _, _) => PortShape(s, t, ch, s');
    case PollWait(_, _) => PollShape(s, t, ch, s');
    case AwaitDone(_, _) => PollShape(s, t, ch, s');
    case StopReadCmd => StopBeginShape(s, t, ch, s');
    case StopBegin(_) => StopBeginShape(s, t, ch, s');
    case Signal(_, _, _) => SignalShape(s, t, ch, s');
    case StopWait(_, _, _) => StopWaitShape(s, t, ch, s');
    case KillWait(_, _, _) => StopWaitShape(s, t, ch, s');
    case StopEnd(_) => StopEndShape(s, t, ch, s');
    case SuspendMark(_) => StopEndShape(s, t, ch, s');
    case ReadPort => ReadPortShape(s, t, ch, s');
    case Calling(_) => EmbedShape(s, t, ch, s');
    case CallStamp => EmbedShape(s, t, ch, s');
    case DropRead(_) => EmbedShape(s, t, ch, s');
    case ServeRead => ServeShape(s, t, ch, s');
    case ServeGrace => ServeShape(s, t, ch, s');
    case Finished(_) =>
  }
}
