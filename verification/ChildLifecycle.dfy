/**
  The child lifecycle protocol as a transition system over any number of threads.

  One step is one lock operation, one section under `mu`, one probe or embed reply, one event
  of a child process, or one tick of the clock. A thread is a goroutine inside Start, the server's
  Embed/EmbedBatch loop, Stop, Serving, or the idle ticker; its program counter names the call
  stack too, because startLocked and stopLocked are reached from several callers. Watchers need no
  program counter: `Reap` and `CloseDone` are their two steps, one pair per child.

  Fields marked "history" are read by no step; they only record what the theorems speak about.
*/
module ChildLifecycle {
  import opened Wrappers
  import opened ChildRecord

  type ThreadId = nat

  // Milliseconds.
  const ALIVE_GRACE := 15_000
  const EMBED_REQUEST_TIMEOUT := 120_000
  const EMBED_MAX_ATTEMPTS := 2

  datatype ServingState = ServingOK | ServingIdle | ServingDegraded

  /** What a goroutine was started to do. `empty` marks an EmbedBatch of no texts. */
  datatype Op = Starting | Embedding(empty: bool) | Stopping | Reporting | Ticking

  datatype Outcome =
    | Started(ok: bool)
    | Answered
    | NotReady
    | EmbedFailed
    | KeptSuspending
    | Stopped
    | Reported(serving: ServingState)
    | NothingToStop

  /** Who called startLocked. */
  datatype StartCaller = ByStart | ByEnsure | ByRestart

  /** Who called stopLocked; Stop carries its `wasRunning`. */
  datatype StopCaller = ForSuspend(wasRunning: bool) | ForVerdict | ForCleanup(from: StartCaller)

  /** Why /health is being probed. Poll, Report and IdleCheck stamp proof of life on success. */
  datatype ProbeKind =
    | Quick
    | Verdict
    | PostDrain(child: ChildId)
    | Poll(from: StartCaller, child: ChildId)
    | Report
    | IdleCheck

  datatype WriterUse = DrainForStop | DrainForRestart

  datatype LifeUse = LifeForStart | LifeForEnsure | LifeForRestart | LifeForStop

  /** Why lifecycleMu is being released. */
  datatype LifeExit = EndStart(ok: bool) | EndEnsure(ok: bool) | Escalate | EndRestart(ok: bool) | EndStop

  datatype WriterExit = WriterEndRestart(ok: bool) | WriterEndStop

  datatype EmbedResult = EmbedOk | EmbedNotStarted | EmbedError

  datatype Pc =
    // locks
    | WantLife(use: LifeUse)
    | WantRestart
    | WantWriter(wuse: WriterUse)
    | Draining(duse: WriterUse)
    | DropLife(exit: LifeExit)
    | DropWriter(wexit: WriterExit)
    | DropRestart(ok: bool)
    // EnsureStarted
    | CheckContext
    | ReadCmd
    | QuickGrace
    // restartIfDead
    | RestartGrace
    | RestartReadCmd
    // probes
    | ProbeRead(kind: ProbeKind)
    | ProbeWait(kind: ProbeKind, port: nat)
    | ProbeStamp(kind: ProbeKind)
    // startLocked
    | Spawn(from: StartCaller)
    | PublishChild(from: StartCaller, child: ChildId)
    | WaitPort(from: StartCaller, child: ChildId)
    | WritePort(from: StartCaller, child: ChildId, port: nat)
    | PollWait(from: StartCaller, child: ChildId)
    | AwaitDone(from: StartCaller, child: ChildId)
    // Stop and stopLocked
    | StopReadCmd
    | StopBegin(cause: StopCaller)
    | Signal(cause: StopCaller, child: ChildId, done: ChildId)
    | StopWait(cause: StopCaller, child: ChildId, done: ChildId)
    | KillWait(cause: StopCaller, child: ChildId, done: ChildId)
    | StopEnd(cause: StopCaller)
    | SuspendMark(wasRunning: bool)
    // Embed
    | WantRead
    | ReadPort
    | Calling(port: nat)
    | CallStamp
    | DropRead(res: EmbedResult)
    // Serving
    | ServeRead
    | ServeGrace
    | Finished(out: Outcome)

  /** History: what restartIfDead saw when its restartMu section began. */
  datatype GraceCheck = GraceCheck(at: nat, lastAlive: nat)

  /** History: the failed probe after the drain, the port it used, and the locks held at that moment. */
  datatype VerdictProbe = VerdictProbe(child: ChildId, port: nat, drainedAndLocked: bool)

  /**
    `attempt` is the loop counter of the server's Embed; `seen` and all that follows are history.
    `seen` is the child the current EnsureStarted found or started, `lost` the children whose absence
    surfaced as ErrNotStarted, `before` the children already gone when the call began.
  */
  datatype Thread = Thread(
    op: Op, pc: Pc, attempt: nat,
    seen: Option<ChildId>, lost: seq<ChildId>, before: set<ChildId>,
    rlockAt: nat, grace: Option<GraceCheck>, verdict: Option<VerdictProbe>, killed: bool)

  /**
    A child process. `delivered` is the port its log line announced, `scanEnd` the closed scannerDone
    channel, `done` the closed done channel. `ready` and `leftInStop` are history: startLocked returned
    nil for it; its watcher reaped it while a Stop that had seen a running child held lifecycleMu.
  */
  datatype Child = Child(delivered: Option<nat>, scanEnd: bool, exited: bool, done: bool, ready: bool, leftInStop: bool)

  /** History: a verdict kill, and how many restarts after a verdict kill had failed before it. */
  datatype Kill = Kill(at: nat, failuresBefore: nat)

  /**
    `writer` owns inflightMu's writer side from the moment it blocks new readers; `drained` says the
    earlier readers are gone. `reaped` holds the children whose watcher ran its section.
    `starter` is the one goroutine that calls Start.
    `pendingSince`, `lastPublished`, `kills` and `failedRestarts` are history.
  */
  datatype State = State(
    rec: Record, ctxSet: bool, ctxDone: bool, starter: Option<ThreadId>,
    restart: Option<ThreadId>, writer: Option<ThreadId>, drained: bool, readers: set<ThreadId>, life: Option<ThreadId>,
    kids: seq<Child>, reaped: set<ChildId>,
    now: nat, lastAlive: nat,
    threads: map<ThreadId, Thread>,
    pendingSince: nat, lastPublished: Option<ChildId>, kills: seq<Kill>, failedRestarts: nat)

  predicate Init(s: State) {
    && s.rec == INITIAL_RECORD && !s.ctxSet && !s.ctxDone && s.starter == None
    && s.restart == None && s.writer == None && !s.drained && s.readers == {} && s.life == None
    && s.kids == [] && s.reaped == {}
    && s.now > 0 && s.lastAlive == 0
    && s.threads == map[]
    && s.lastPublished == None && s.kills == [] && s.failedRestarts == 0
  }

  /** How a step that can go more than one way went. */
  datatype Choice = Proceed | Refuse | Expire

  datatype Action =
    | Begin(tid: ThreadId, op: Op)
    | Act(tid: ThreadId, choice: Choice)
    | Reap(child: ChildId)
    | CloseDone(child: ChildId)
    | Announce(child: ChildId, port: nat)
    | EndScan(child: ChildId)
    | Exit(child: ChildId)
    | ContextKill(child: ChildId)
    | CancelContext
    | Tick(elapsed: nat)

  predicate RecentlyAlive(s: State) {
    s.lastAlive != 0 && s.now - s.lastAlive < ALIVE_GRACE
  }

  /** A probe of `p` can be answered only by a running child that announced `p`. */
  predicate Listening(s: State, p: nat) {
    exists c: ChildId :: c < |s.kids| && !s.kids[c].exited && s.kids[c].delivered == Some(p)
  }

  function Put(s: State, t: ThreadId, th: Thread): State {
    s.(threads := s.threads[t := th])
  }

  function Goto(s: State, t: ThreadId, pc: Pc): State
    requires t in s.threads
  {
    Put(s, t, s.threads[t].(pc := pc))
  }

  // ----- where control goes when a call returns -----

  function StartReturn(from: StartCaller, ok: bool): Pc {
    match from
    case ByStart => DropLife(EndStart(ok))
    case ByEnsure => DropLife(EndEnsure(ok))
    case ByRestart => DropLife(EndRestart(ok))
  }

  function StopReturn(cause: StopCaller): Pc {
    match cause
    case ForSuspend(was) => SuspendMark(was)
    case ForVerdict => Spawn(ByRestart)
    case ForCleanup(from) => StartReturn(from, false)
  }

  function EnsureReturn(op: Op, ok: bool): Pc {
    if !ok then Finished(NotReady)
    else if op == Embedding(true) then Finished(Answered)
    else WantRead
  }

  function ProbeMiss(kind: ProbeKind): Pc {
    match kind
    case Quick => QuickGrace
    case Verdict => WantWriter(DrainForRestart)
    case PostDrain(_) => StopBegin(ForVerdict)
    case Poll(from, c) => PollWait(from, c)
    case Report => ServeGrace
    case IdleCheck => Finished(NothingToStop)
  }

  function ProbeHit(kind: ProbeKind): Pc {
    match kind
    case Quick => DropLife(EndEnsure(true))
    case Verdict => DropRestart(true)
    case PostDrain(_) => DropLife(EndRestart(true))
    case Poll(_, _) => ProbeStamp(kind)
    case Report => ProbeStamp(kind)
    case IdleCheck => ProbeStamp(kind)
  }

  // ----- where control goes when a lock is taken or released -----

  function UnderLife(use: LifeUse): Pc {
    match use
    case LifeForStart => Spawn(ByStart)
    case LifeForEnsure => CheckContext
    case LifeForRestart => RestartReadCmd
    case LifeForStop => StopReadCmd
  }

  function AfterLife(op: Op, exit: LifeExit): Pc {
    match exit
    case EndStart(ok) => Finished(Started(ok))
    case EndEnsure(ok) => EnsureReturn(op, ok)
    case Escalate => WantRestart
    case EndRestart(ok) => DropWriter(WriterEndRestart(ok))
    case EndStop => DropWriter(WriterEndStop)
  }

  function AfterWriter(exit: WriterExit): Pc {
    match exit
    case WriterEndRestart(ok) => DropRestart(ok)
    case WriterEndStop => Finished(Stopped)
  }

  /** The thread once the read lock is given back: answered, failed, or in its next attempt. */
  function AfterRead(th: Thread, res: EmbedResult): Thread {
    match res
    case EmbedOk => th.(pc := Finished(Answered))
    case EmbedError => th.(pc := Finished(EmbedFailed))
    case EmbedNotStarted =>
      var attempt := th.attempt + 1;
      th.(attempt := attempt, pc := if attempt < EMBED_MAX_ATTEMPTS then WantLife(LifeForEnsure)
          else Finished(KeptSuspending))
  }

  /** The thread past its stamped probe, where there is one. */
  function AfterStamp(th: Thread, kind: ProbeKind): Option<Thread> {
    match kind
    case Poll(from, c) => Some(th.(seen := Some(c), pc := StartReturn(from, true)))
    case Report => Some(th.(pc := Finished(Reported(ServingOK))))
    case IdleCheck => Some(th.(pc := WantWriter(DrainForStop)))
    case _ => None
  }

  function MarkReady(kids: seq<Child>, kind: ProbeKind): seq<Child> {
    if kind.Poll? && kind.child < |kids| then kids[kind.child := kids[kind.child].(ready := true)] else kids
  }

  // ----- history bookkeeping -----

  /** The probe after the drain was missed: record which child and port it was aimed at. */
  function NoteMiss(s: State, t: ThreadId, kind: ProbeKind, port: nat): Thread
    requires t in s.threads
  {
    match kind
    case PostDrain(c) =>
      var held := s.drained && s.writer == Some(t) && s.life == Some(t) && s.readers == {};
      s.threads[t].(verdict := Some(VerdictProbe(c, port, held)), pc := ProbeMiss(kind))
    case _ => s.threads[t].(pc := ProbeMiss(kind))
  }

  /** startLocked failed: if a verdict kill led to it, that restart did not succeed. */
  function NoteStartFailure(s: State, t: ThreadId, from: StartCaller): State
    requires t in s.threads
  {
    if from == ByRestart && s.threads[t].killed then s.(failedRestarts := s.failedRestarts + 1) else s
  }

  // ----- the steps of one thread, by the part of the code it is in -----

  function LockStep(s: State, t: ThreadId): Option<State>
    requires t in s.threads
  {
    match s.threads[t].pc
    case WantLife(use) =>
      if s.life != None then None
      else Some(Goto(s.(life := Some(t), ctxSet := s.ctxSet || use == LifeForStart), t, UnderLife(use)))
    case WantRestart =>
      if s.restart != None then None else Some(Goto(s.(restart := Some(t)), t, RestartGrace))
    case WantWriter(use) =>
      if s.writer != None then None
      else Some(Goto(s.(writer := Some(t), drained := false, pendingSince := s.now), t, Draining(use)))
    case Draining(use) =>
      if s.readers != {} then None
      else Some(Goto(s.(drained := true), t, WantLife(if use == DrainForStop then LifeForStop else LifeForRestart)))
    case DropLife(exit) => Some(Goto(s.(life := None), t, AfterLife(s.threads[t].op, exit)))
    case DropWriter(exit) => Some(Goto(s.(writer := None, drained := false), t, AfterWriter(exit)))
    case DropRestart(ok) =>
      Some(Goto(s.(restart := None), t, EnsureReturn(s.threads[t].op, ok)))
    case WantRead =>
      if s.writer != None then None
      else
        Some(Put(s.(readers := s.readers + {t}), t, s.threads[t].(rlockAt := s.now, pc := ReadPort)))
    case _ => None
  }

  function EnsureStep(s: State, t: ThreadId): Option<State>
    requires t in s.threads
  {
    match s.threads[t].pc
    case CheckContext =>
      Some(Goto(s, t, if !s.ctxSet || s.ctxDone then DropLife(EndEnsure(false)) else ReadCmd))
    case ReadCmd =>
      if s.rec.cmd == None then Some(Goto(s, t, Spawn(ByEnsure)))
      else Some(Put(s, t, s.threads[t].(seen := s.rec.cmd, pc := ProbeRead(Quick))))
    case QuickGrace =>
      Some(Goto(s, t, DropLife(if RecentlyAlive(s) then EndEnsure(true) else Escalate)))
    case RestartGrace =>
      if RecentlyAlive(s) then Some(Goto(s, t, DropRestart(true)))
      else
        var check := GraceCheck(s.now, s.lastAlive);
        Some(Put(s, t, s.threads[t].(grace := Some(check), verdict := None, killed := false, pc := ProbeRead(Verdict))))
    case RestartReadCmd =>
      Some(Goto(s, t, if s.rec.cmd == None then Spawn(ByRestart) else ProbeRead(PostDrain(s.rec.cmd.value))))
    case _ => None
  }

  function ProbeStep(s: State, t: ThreadId, ch: Choice): Option<State>
    requires t in s.threads
  {
    match s.threads[t].pc
    case ProbeRead(kind) =>
      if s.rec.port == 0 then Some(Put(s, t, NoteMiss(s, t, kind, 0)))
      else Some(Goto(s, t, ProbeWait(kind, s.rec.port)))
    case ProbeWait(kind, p) =>
      if ch == Proceed then
        if Listening(s, p) then Some(Goto(s, t, ProbeHit(kind))) else None
      else Some(Put(s, t, NoteMiss(s, t, kind, p)))
    case ProbeStamp(kind) =>
      var th := AfterStamp(s.threads[t], kind);
      if th == None then None
      else Some(Put(s.(lastAlive := s.now, kids := MarkReady(s.kids, kind)), t, th.value))
    case _ => None
  }

  function StartStep(s: State, t: ThreadId, ch: Choice): Option<State>
    requires t in s.threads
  {
    match s.threads[t].pc
    case Spawn(from) =>
      if ch == Proceed then
        if s.ctxDone then None
        else Some(Goto(s.(kids := s.kids + [Child(None, false, false, false, false, false)]), t,
            PublishChild(from, |s.kids|)))
      else Some(Goto(NoteStartFailure(s, t, from), t, StartReturn(from, false)))
    case PublishChild(from, c) =>
      Some(Goto(s.(rec := Published(s.rec, c), lastPublished := Some(c)), t, WaitPort(from, c)))
    case WaitPort(from, c) =>
      if c >= |s.kids| then None
      else
        (match ch
         case Proceed =>
           if s.kids[c].delivered == None then None
           else Some(Goto(s, t, WritePort(from, c, s.kids[c].delivered.value)))
         case Refuse =>
           if !s.kids[c].scanEnd then None else Some(Goto(s, t, AwaitDone(from, c)))
         case Expire =>
           if !s.ctxDone then None else Some(Goto(s, t, StopBegin(ForCleanup(from)))))
    case WritePort(from, c, p) =>
      Some(Goto(s.(rec := s.rec.(port := p)), t, ProbeRead(Poll(from, c))))
    case PollWait(from, c) =>
      if c >= |s.kids| then None
      else
        (match ch
         case Proceed => Some(Goto(s, t, ProbeRead(Poll(from, c))))
         case Refuse =>
           if !s.kids[c].scanEnd then None else Some(Goto(s, t, AwaitDone(from, c)))
         case Expire => Some(Goto(s, t, StopBegin(ForCleanup(from)))))
    case AwaitDone(from, c) =>
      if c >= |s.kids| || !s.kids[c].done then None
      else Some(Goto(NoteStartFailure(s, t, from), t, StartReturn(from, false)))
    case _ => None
  }

  function StopStep(s: State, t: ThreadId, ch: Choice): Option<State>
    requires t in s.threads
  {
    match s.threads[t].pc
    case StopReadCmd =>
      Some(Goto(s, t, StopBegin(ForSuspend(s.rec.cmd.Some?))))
    case StopBegin(cause) =>
      if s.rec.cmd == None then
        Some(Goto(if cause.ForCleanup? then NoteStartFailure(s, t, cause.from) else s, t, StopReturn(cause)))
      else if s.rec.cmdDone == None then None
      else Some(Goto(s.(rec := StopMarked(s.rec)), t, Signal(cause, s.rec.cmd.value, s.rec.cmdDone.value)))
    case Signal(cause, c, d) =>
      if cause == ForVerdict then
        var s := s.(kills := s.kills + [Kill(s.now, s.failedRestarts)]);
        Some(Put(s, t, s.threads[t].(killed := true, pc := StopWait(cause, c, d))))
      else Some(Goto(s, t, StopWait(cause, c, d)))
    case StopWait(cause, c, d) =>
      if ch == Expire then Some(Goto(s, t, KillWait(cause, c, d)))
      else if d >= |s.kids| || !s.kids[d].done then None
      else Some(Goto(s, t, StopEnd(cause)))
    case KillWait(cause, c, d) =>
      if d >= |s.kids| || !s.kids[d].done then None
      else Some(Goto(s, t, StopEnd(cause)))
    case StopEnd(cause) =>
      var s := if cause.ForCleanup? then NoteStartFailure(s, t, cause.from) else s;
      Some(Goto(s.(rec := s.rec.(stopping := false)), t, StopReturn(cause)))
    case SuspendMark(was) =>
      Some(Goto(if was then s.(rec := s.rec.(state := ChildSuspended)) else s, t, DropLife(EndStop)))
    case _ => None
  }

  function EmbedStep(s: State, t: ThreadId, ch: Choice): Option<State>
    requires t in s.threads
  {
    match s.threads[t].pc
    case ReadPort =>
      if s.rec.port != 0 then Some(Goto(s, t, Calling(s.rec.port)))
      else
        var th := s.threads[t];
        var lost := if th.seen.Some? then th.lost + [th.seen.value] else th.lost;
        Some(Put(s, t, th.(lost := lost, seen := None, pc := DropRead(EmbedNotStarted))))
    case Calling(p) =>
      if ch != Proceed then Some(Goto(s, t, DropRead(EmbedError)))
      else if Listening(s, p) then Some(Goto(s, t, CallStamp))
      else None
    case CallStamp =>
      // A reply with the wrong number of embeddings is stamped all the same, then rejected.
      Some(Goto(s.(lastAlive := s.now), t, DropRead(if ch == Proceed then EmbedOk else EmbedError)))
    case DropRead(res) => Some(Put(s.(readers := s.readers - {t}), t, AfterRead(s.threads[t], res)))
    case ServeRead =>
      Some(Goto(s, t,
        if s.rec.cmd.Some? then ProbeRead(Report)
        else Finished(Reported(if s.rec.state == ChildSuspended then ServingIdle else ServingDegraded))))
    case ServeGrace =>
      Some(Goto(s, t, Finished(Reported(if RecentlyAlive(s) then ServingOK else ServingDegraded))))
    case _ => None
  }

  function ThreadStep(s: State, t: ThreadId, ch: Choice): Option<State>
    requires t in s.threads
  {
    match s.threads[t].pc
    case WantLife(_) => LockStep(s, t)
    case WantRestart => LockStep(s, t)
    case WantWriter(_) => LockStep(s, t)
    case Draining(_) => LockStep(s, t)
    case DropLife(_) => LockStep(s, t)
    case DropWriter(_) => LockStep(s, t)
    case DropRestart(_) => LockStep(s, t)
    case WantRead => LockStep(s, t)
    case CheckContext => EnsureStep(s, t)
    case ReadCmd => EnsureStep(s, t)
    case QuickGrace => EnsureStep(s, t)
    case RestartGrace => EnsureStep(s, t)
    case RestartReadCmd => EnsureStep(s, t)
    case ProbeRead(_) => ProbeStep(s, t, ch)
    case ProbeWait(_, _) => ProbeStep(s, t, ch)
    case ProbeStamp(_) => ProbeStep(s, t, ch)
    case Spawn(_) => StartStep(s, t, ch)
    case PublishChild(_, _) => StartStep(s, t, ch)
    case WaitPort(_, _) => StartStep(s, t, ch)
    case WritePort(_, _, _) => StartStep(s, t, ch)
    case PollWait(_, _) => StartStep(s, t, ch)
    case AwaitDone(_, _) => StartStep(s, t, ch)
    case StopReadCmd => StopStep(s, t, ch)
    case StopBegin(_) => StopStep(s, t, ch)
    case Signal(_, _, _) => StopStep(s, t, ch)
    case StopWait(_, _, _) => StopStep(s, t, ch)
    case KillWait(_, _, _) => StopStep(s, t, ch)
    case StopEnd(_) => StopStep(s, t, ch)
    case SuspendMark(_) => StopStep(s, t, ch)
    case ReadPort => EmbedStep(s, t, ch)
    case Calling(_) => EmbedStep(s, t, ch)
    case CallStamp => EmbedStep(s, t, ch)
    case DropRead(_) => EmbedStep(s, t, ch)
    case ServeRead => EmbedStep(s, t, ch)
    case ServeGrace => EmbedStep(s, t, ch)
    case Finished(_) => None
  }

  // ----- everything else that can happen -----

  /** lifecycleMu is held by a Stop between reading `wasRunning` as true and writing the state. */
  predicate StopWindow(s: State) {
    s.life.Some? && s.life.value in s.threads && StopWindowPc(s.threads[s.life.value].pc)
  }

  predicate StopWindowPc(pc: Pc) {
    match pc
    case StopBegin(cause) => cause == ForSuspend(true)
    case Signal(cause, _, _) => cause == ForSuspend(true)
    case StopWait(cause, _, _) => cause == ForSuspend(true)
    case KillWait(cause, _, _) => cause == ForSuspend(true)
    case StopEnd(cause) => cause == ForSuspend(true)
    case SuspendMark(was) => was
    case _ => false
  }

  function FirstPc(op: Op): Pc {
    match op
    case Starting => WantLife(LifeForStart)
    case Embedding(_) => WantLife(LifeForEnsure)
    case Stopping => WantWriter(DrainForStop)
    case Reporting => ServeRead
    case Ticking => ProbeRead(IdleCheck)
  }

  function BeginStep(s: State, t: ThreadId, op: Op): Option<State> {
    if t in s.threads || (op == Starting && s.starter.Some?) then None
    else
      var th := Thread(op, FirstPc(op), 0, None, [], s.reaped, 0, None, None, false);
      Some(s.(threads := s.threads[t := th], starter := if op == Starting then Some(t) else s.starter))
  }

  /** The watcher of `c`, created with the child's publication, after Wait returned. */
  function ReapStep(s: State, c: ChildId): Option<State> {
    if c >= |s.kids| || !s.kids[c].exited || c in s.reaped then None
    else if s.lastPublished == None || s.lastPublished.value < c then None
    else
      Some(s.(rec := Reaped(s.rec, c), reaped := s.reaped + {c},
              kids := s.kids[c := s.kids[c].(leftInStop := StopWindow(s))]))
  }

  function ChildStep(s: State, a: Action): Option<State> {
    match a
    case CloseDone(c) =>
      if c >= |s.kids| || c !in s.reaped || s.kids[c].done then None
      else Some(s.(kids := s.kids[c := s.kids[c].(done := true)]))
    case Announce(c, p) =>
      if c >= |s.kids| || s.kids[c].scanEnd || s.kids[c].delivered.Some? then None
      else Some(s.(kids := s.kids[c := s.kids[c].(delivered := Some(p))]))
    case EndScan(c) =>
      if c >= |s.kids| then None
      else Some(s.(kids := s.kids[c := s.kids[c].(scanEnd := true)]))
    case Exit(c) =>
      if c >= |s.kids| || s.kids[c].exited then None
      else Some(s.(kids := s.kids[c := s.kids[c].(exited := true)]))
    case ContextKill(c) =>
      // exec.CommandContext: the daemon context is done, and the child started under it is killed.
      if c >= |s.kids| || s.kids[c].exited || !s.ctxDone then None
      else Some(s.(kids := s.kids[c := s.kids[c].(exited := true)]))
    case _ => None
  }

  function Step(s: State, a: Action): Option<State> {
    match a
    case Begin(t, op) => BeginStep(s, t, op)
    case Act(t, ch) => if t in s.threads then ThreadStep(s, t, ch) else None
    case Reap(c) => ReapStep(s, c)
    case CancelContext => Some(s.(ctxDone := true))
    case Tick(d) => Some(s.(now := s.now + d))
    case _ => ChildStep(s, a)
  }

  /** The state after a sequence of steps, if each was possible. */
  function Run(s: State, acts: seq<Action>): Option<State> {
    if acts == [] then Some(s)
    else
      var r := Run(s, acts[..|acts| - 1]);
      if r == None then None else Step(r.value, acts[|acts| - 1])
  }

  /** A state some run from an initial state ends in. */
  ghost predicate Reachable(s: State) {
    exists s0: State, acts: seq<Action> :: Init(s0) && Run(s0, acts) == Some(s)
  }
}
