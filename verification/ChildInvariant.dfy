/** The inductive invariant of the child lifecycle protocol. */
module ChildInvariant {
  import opened Wrappers
  import opened ChildRecord
  import opened ChildLifecycle

  // ----- which locks the call stack at a program counter holds -----

  /**
    `Pending` is inflightMu's writer side from the moment it blocks new readers, `Drained` once the earlier
    ones are gone; a name lists the locks in the order in which they are taken.
  */
  datatype Locks =
    | Nothing
    | ReadSide
    | Life
    | Restart
    | Pending
    | RestartPending
    | Drained
    | DrainedLife
    | RestartDrained
    | RestartDrainedLife

  function HeldStarting(from: StartCaller): Locks {
    if from.ByRestart? then RestartDrainedLife else Life
  }

  function HeldStopping(cause: StopCaller): Locks {
    match cause
    case ForSuspend(_) => DrainedLife
    case ForVerdict => RestartDrainedLife
    case ForCleanup(from) => HeldStarting(from)
  }

  function HeldProbing(k: ProbeKind): Locks {
    match k
    case Quick => Life
    case Verdict => Restart
    case PostDrain(_) => RestartDrainedLife
    case Poll(from, _) => HeldStarting(from)
    case Report => Nothing
    case IdleCheck => Nothing
  }

  function HeldWaiting(use: LifeUse): Locks {
    match use
    case LifeForStart => Nothing
    case LifeForEnsure => Nothing
    case LifeForRestart => RestartDrained
    case LifeForStop => Drained
  }

  function HeldLeaving(exit: LifeExit): Locks {
    match exit
    case EndStart(_) => Life
    case EndEnsure(_) => Life
    case Escalate => Life
    case EndRestart(_) => RestartDrainedLife
    case EndStop => DrainedLife
  }

  function Held(pc: Pc): Locks {
    match pc
    case WantLife(use) => HeldWaiting(use)
    case WantRestart => Nothing
    case WantWriter(use) => if use.DrainForRestart? then Restart else Nothing
    case Draining(use) => if use.DrainForRestart? then RestartPending else Pending
    case DropLife(exit) => HeldLeaving(exit)
    case DropWriter(exit) => if exit.WriterEndRestart? then RestartDrained else Drained
    case DropRestart(_) => Restart
    case CheckContext => Life
    case ReadCmd => Life
    case QuickGrace => Life
    case RestartGrace => Restart
    case RestartReadCmd => RestartDrainedLife
    case ProbeRead(k) => HeldProbing(k)
    case ProbeWait(k, _) => HeldProbing(k)
    case ProbeStamp(k) => HeldProbing(k)
    case Spawn(from) => HeldStarting(from)
    case PublishChild(from, _) => HeldStarting(from)
    case WaitPort(from, _) => HeldStarting(from)
    case WritePort(from, _, _) => HeldStarting(from)
    case PollWait(from, _) => HeldStarting(from)
    case AwaitDone(from, _) => HeldStarting(from)
    case StopReadCmd => DrainedLife
    case StopBegin(cause) => HeldStopping(cause)
    case Signal(cause, _, _) => HeldStopping(cause)
    case StopWait(cause, _, _) => HeldStopping(cause)
    case KillWait(cause, _, _) => HeldStopping(cause)
    case StopEnd(cause) => HeldStopping(cause)
    case SuspendMark(_) => DrainedLife
    case WantRead => Nothing
    case ReadPort => ReadSide
    case Calling(_) => ReadSide
    case CallStamp => ReadSide
    case DropRead(_) => ReadSide
    case ServeRead => Nothing
    case ServeGrace => Nothing
    case Finished(_) => Nothing
  }

  predicate HoldsLife(pc: Pc) {
    var l := Held(pc); l.Life? || l.DrainedLife? || l.RestartDrainedLife?
  }

  predicate HoldsRestart(pc: Pc) {
    var l := Held(pc); l.Restart? || l.RestartPending? || l.RestartDrained? || l.RestartDrainedLife?
  }

  predicate HoldsDrained(pc: Pc) {
    var l := Held(pc); l.Drained? || l.DrainedLife? || l.RestartDrained? || l.RestartDrainedLife?
  }

  predicate HoldsWriter(pc: Pc) {
    Held(pc).Pending? || Held(pc).RestartPending? || HoldsDrained(pc)
  }

  predicate HoldsRead(pc: Pc) {
    Held(pc).ReadSide?
  }

  // ----- what it is in the middle of -----

  predicate Probing(pc: Pc) {
    pc.ProbeRead? || pc.ProbeWait? || pc.ProbeStamp?
  }

  /** Inside startLocked past its publication, also in the clean-up of a start that failed. */
  predicate InStarting(pc: Pc) {
    || pc.WaitPort? || pc.WritePort? || pc.PollWait? || pc.AwaitDone? || (Probing(pc) && pc.kind.Poll?)
    || ((pc.StopBegin? || StopMarking(pc)) && pc.cause.ForCleanup?)
  }

  /** Between the two sections of stopLocked. */
  predicate StopMarking(pc: Pc) {
    pc.Signal? || pc.StopWait? || pc.KillWait? || pc.StopEnd?
  }

  /** The child spawned and not yet published. */
  function Unpublished(pc: Pc): Option<ChildId> {
    if pc.PublishChild? then Some(pc.child) else None
  }

  /** A restartMu section past its grace check, until restartIfDead has its answer. */
  predicate Judging(pc: Pc) {
    HoldsRestart(pc) && !pc.RestartGrace? && !pc.DropRestart? && !pc.DropWriter? && !pc.DropLife?
  }

  /** Between a verdict kill, or a missing child, and the end of the start that replaces it. */
  predicate Restarting(pc: Pc) {
    HoldsRestart(pc)
    && (InStarting(pc) || pc.Spawn? || pc.PublishChild? || pc.StopWait? || pc.KillWait? || pc.StopEnd?)
  }

  /** EnsureStarted has found or started a child in this attempt. */
  predicate HasSeen(pc: Pc) {
    || HoldsRestart(pc) || (HoldsRead(pc) && !pc.DropRead?) || pc.WantRestart? || pc.WantRead? || pc.QuickGrace?
    || (Probing(pc) && pc.kind.Quick?)
    || (pc.DropLife? && (pc.exit.Escalate? || (pc.exit.EndEnsure? && pc.exit.ok)))
  }

  predicate ThreadLocks(s: State, t: ThreadId, pc: Pc) {
    && (HoldsLife(pc) <==> s.life == Some(t))
    && (HoldsRestart(pc) <==> s.restart == Some(t))
    && (HoldsWriter(pc) <==> s.writer == Some(t))
    && (HoldsWriter(pc) ==> (HoldsDrained(pc) <==> s.drained))
    && (HoldsRead(pc) <==> t in s.readers)
  }

  ghost predicate LocksOk(s: State) {
    && (s.life.Some? ==> s.life.value in s.threads)
    && (s.restart.Some? ==> s.restart.value in s.threads)
    && (s.writer.Some? ==> s.writer.value in s.threads)
    && s.readers <= s.threads.Keys
    && (s.drained ==> s.writer.Some? && s.readers == {})
    && forall t :: t in s.threads ==> ThreadLocks(s, t, s.threads[t].pc)
  }

  // ----- children and the record -----

  /** Where the holder of lifecycleMu is, if anybody holds it. */
  function HolderPc(s: State): Pc {
    if s.life.Some? && s.life.value in s.threads then s.threads[s.life.value].pc else Finished(Stopped)
  }

  ghost predicate ChildrenOk(s: State) {
    && (forall c :: c in s.reaped ==>
        c < |s.kids| && s.kids[c].exited && s.lastPublished.Some? && c <= s.lastPublished.value)
    && (forall c: ChildId :: c < |s.kids| && s.kids[c].done ==> c in s.reaped)
    && (forall c: ChildId :: c < |s.kids| && c !in s.reaped ==>
        s.rec.cmd == Some(c) || Unpublished(HolderPc(s)) == Some(c))
    && (s.lastPublished.Some? ==> s.lastPublished.value < |s.kids|)
    && (!s.ctxSet ==> s.kids == [])
    && (s.starter == None ==> !s.ctxSet)
  }

  ghost predicate RecordOk(s: State) {
    && (s.rec.cmd.Some? ==>
          && s.rec.cmd.value < |s.kids| && s.rec.cmd.value !in s.reaped
          && s.lastPublished == s.rec.cmd && s.rec.cmdDone == s.rec.cmd
          && s.rec.state == ChildRunning
          && if s.kids[s.rec.cmd.value].ready
             then s.rec.port != 0 && s.kids[s.rec.cmd.value].delivered == Some(s.rec.port)
             else InStarting(HolderPc(s)))
    && (s.rec.stopping <==> StopMarking(HolderPc(s)))
    && (s.rec.cmd == None && !StopWindow(s) ==> (s.rec.state == ChildSuspended <==> LastLeftInStop(s)))
    && (s.rec.cmd == None && StopWindow(s) ==> LastLeftInStop(s) && s.rec.state == ChildFailed)
  }

  /** The last child published was reaped inside some Stop's window. */
  predicate LastLeftInStop(s: State) {
    s.lastPublished.Some? && s.lastPublished.value < |s.kids| && s.kids[s.lastPublished.value].leftInStop
  }

  // ----- what each program counter knows -----

  /** The holder of lifecycleMu is looking after child `c`: nobody can publish another. */
  predicate Minding(s: State, c: ChildId) {
    c < |s.kids| && (s.rec.cmd == None || s.rec.cmd == Some(c))
  }

  predicate StartingChild(s: State, th: Thread, c: ChildId) {
    Minding(s, c) && !s.kids[c].ready && c !in th.before && c !in th.lost
  }

  predicate Announced(s: State, c: ChildId) {
    c < |s.kids| && (s.rec.cmd == Some(c) ==> s.kids[c].delivered == Some(s.rec.port))
  }

  /** A verdict probe made after the drain, under both locks, at the port of the same child `c`. */
  predicate CondemnedBy(s: State, th: Thread, c: ChildId) {
    && th.verdict.Some? && th.verdict.value.drainedAndLocked
    && th.verdict.value.child == c && c < |s.kids|
    && s.kids[c].delivered == Some(th.verdict.value.port)
  }

  predicate StopTarget(s: State, th: Thread, cause: StopCaller, c: ChildId, d: ChildId) {
    && d == c && Minding(s, c)
    && cause != ForSuspend(false)
    && (cause == ForVerdict ==> CondemnedBy(s, th, c))
  }

  predicate PcOk(s: State, th: Thread) {
    match th.pc
    case WantLife(use) => use == LifeForStart ==> th.op == Starting && !s.ctxSet
    case ReadCmd => s.ctxSet
    case ProbeRead(k) => ProbeOk(s, th, k)
    case ProbeWait(k, p) => p != 0 && ProbeOk(s, th, k) && AimedAt(s, k, p)
    case ProbeStamp(k) => (k.Poll? || k.Report? || k.IdleCheck?) && ProbeOk(s, th, k)
        && (k.Poll? && s.rec.cmd.Some? ==> s.rec.port != 0)
    case Spawn(_) => s.rec.cmd == None && s.ctxSet
    case PublishChild(_, c) =>
      s.rec.cmd == None && c + 1 == |s.kids| && c !in s.reaped && !s.kids[c].ready && s.lastPublished != Some(c)
    case WaitPort(_, c) => StartingChild(s, th, c)
    case WritePort(_, c, p) => StartingChild(s, th, c) && s.kids[c].delivered == Some(p)
    case PollWait(_, c) => StartingChild(s, th, c) && Announced(s, c)
    case AwaitDone(_, c) => StartingChild(s, th, c)
    case StopBegin(cause) =>
      match cause {
        case ForSuspend(was) => was || s.rec.cmd == None
        case ForVerdict => s.rec.cmd.Some? ==> CondemnedBy(s, th, s.rec.cmd.value)
        case ForCleanup(_) => true
      }
    case Signal(cause, c, d) => StopTarget(s, th, cause, c, d)
    case StopWait(cause, c, d) => StopTarget(s, th, cause, c, d)
    case KillWait(cause, c, d) => StopTarget(s, th, cause, c, d)
    case StopEnd(_) => s.rec.cmd == None
    case SuspendMark(_) => s.rec.cmd == None
    case _ => true
  }

  predicate ProbeOk(s: State, th: Thread, k: ProbeKind) {
    match k
    case PostDrain(c) => Minding(s, c)
    case Poll(_, c) => StartingChild(s, th, c) && Announced(s, c)
    case _ => true
  }

  /** The port in hand is the one the minded child announced, as long as that child is there. */
  predicate AimedAt(s: State, k: ProbeKind, p: nat) {
    match k
    case PostDrain(c) => c < |s.kids| && (s.rec.cmd == Some(c) ==> s.kids[c].delivered == Some(p))
    case Poll(_, c) => c < |s.kids| && (s.rec.cmd == Some(c) ==> s.kids[c].delivered == Some(p))
    case _ => true
  }

  ghost predicate HistoryOk(s: State, th: Thread) {
    && th.before <= s.reaped
    && (th.seen.Some? ==>
          th.seen.value < |s.kids| && s.kids[th.seen.value].ready && th.seen.value !in th.before
              && th.seen.value !in th.lost)
    && (HasSeen(th.pc) ==> th.seen.Some?)
    && (forall i :: 0 <= i < |th.lost| ==> th.lost[i] in s.reaped && th.lost[i] !in th.before)
    && (forall i, j :: 0 <= i < j < |th.lost| ==> th.lost[i] != th.lost[j])
    && |th.lost| == (if th.pc == DropRead(EmbedNotStarted) then th.attempt + 1 else th.attempt)
    && (th.pc == Finished(KeptSuspending) ==> th.attempt == EMBED_MAX_ATTEMPTS)
    && (!th.pc.Finished? ==> th.attempt < EMBED_MAX_ATTEMPTS)
  }

  ghost predicate ThreadsOk(s: State) {
    && (s.starter.Some? ==> s.starter.value in s.threads)
    && forall t :: t in s.threads ==>
      PcOk(s, s.threads[t]) && HistoryOk(s, s.threads[t]) && (s.threads[t].op == Starting <==> s.starter == Some(t))
  }

  // ----- time -----

  predicate Spaced(a: Kill, b: Kill) {
    && a.at <= b.at && a.failuresBefore <= b.failuresBefore
    && (a.at + ALIVE_GRACE <= b.at || a.failuresBefore < b.failuresBefore)
  }

  predicate Stale(g: GraceCheck) {
    g.lastAlive == 0 || g.lastAlive + ALIVE_GRACE <= g.at
  }

  /** A restartMu section past its grace check: what the check saw, and how long after the last kill. */
  predicate GraceOk(s: State, th: Thread) {
    && th.grace.Some? && Stale(th.grace.value) && th.grace.value.at <= s.now
    && (|s.kills| > 0 && !th.killed ==> Spaced(s.kills[|s.kills| - 1], Kill(th.grace.value.at, s.failedRestarts)))
  }

  predicate TimedThread(s: State, th: Thread) {
    Judging(th.pc) ==> GraceOk(s, th) && (Restarting(th.pc) || !th.killed)
  }

  /** The last verdict kill is over: its restart is under way, stamped proof of life, or failed. */
  ghost predicate LastKillOk(s: State) {
    |s.kills| > 0 ==>
      var k := s.kills[|s.kills| - 1];
      && 0 < k.at <= s.now && k.failuresBefore <= s.failedRestarts
      && (|| k.failuresBefore < s.failedRestarts
          || k.at <= s.lastAlive
          || (s.restart.Some? && s.restart.value in s.threads
              && s.threads[s.restart.value].killed && Restarting(s.threads[s.restart.value].pc)))
  }

  ghost predicate ClockOk(s: State) {
    && 0 < s.now && s.lastAlive <= s.now
    && (forall i {:trigger s.kills[i]} :: 0 < i < |s.kills| ==> Spaced(s.kills[i - 1], s.kills[i]))
    && LastKillOk(s)
  }

  /** No reader took its read lock after a pending drain began. */
  ghost predicate ReadersOk(s: State) {
    && (forall t :: t in s.readers && t in s.threads ==> s.threads[t].rlockAt <= s.now)
    && (s.writer.Some? && !s.drained ==>
          s.pendingSince <= s.now && forall t :: t in s.readers && t in s.threads ==>
              s.threads[t].rlockAt <= s.pendingSince)
  }

  ghost predicate TimedOk(s: State) {
    forall t :: t in s.threads ==> TimedThread(s, s.threads[t])
  }

  ghost predicate Inv(s: State) {
    LocksOk(s) && ChildrenOk(s) && RecordOk(s) && ThreadsOk(s) && ClockOk(s) && ReadersOk(s) && TimedOk(s)
  }
}
