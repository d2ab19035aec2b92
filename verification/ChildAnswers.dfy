/**
  What the answers rest on, over whole runs: when EnsureStarted, Serving, Stop or an embed says something, a
  step of that very call has seen it.
*/
module ChildAnswers {
  import opened Wrappers
  import opened ChildRecord
  import opened ChildLifecycle
  import opened ChildInvariant
  import opened ChildShapes
  import opened ChildEvents
  import opened ChildTheorems

  /**
    What a thread can stand for. `Assured`: a child is there. `Replied`: a child has answered the call. `Gone`:
    Stop has no child left. `Missed`: a probe was missed. `Stale`: no proof of life is recent enough.
    `Refused`: there is no context, or the start failed. `Silenced`: the starting child will say no more.
    `GivenUp`: its start is being abandoned. `Broken`: the call failed. `Unported`: there was no port. `Idle` and
    `Down`: Serving's other two answers. `Vital`: proof of life has been stamped, or found.
  */
  datatype Claim =
    | Assured
    | Replied
    | Gone
    | Missed
    | Stale
    | Refused
    | Silenced
    | GivenUp
    | Broken
    | Unported
    | Idle
    | Down
    | Vital

  /** Where a thread is that makes the claim. */
  predicate Makes(claim: Claim, th: Thread) {
    match claim
    case Assured => AssuredPc(th.pc) || (th.op.Ticking? && th.pc.WantWriter? && th.pc.wuse.DrainForStop?)
    case Replied => RepliedPc(th)
    case Gone => GonePc(th.pc)
    case Missed => MissedPc(th.pc)
    case Stale => StalePc(th.pc)
    case Refused => RefusedPc(th.pc)
    case Silenced => th.pc.AwaitDone?
    case GivenUp => th.pc.StopBegin? && th.pc.cause.ForCleanup?
    case Broken => BrokenPc(th.pc)
    case Unported => th.pc.DropRead? && th.pc.res.EmbedNotStarted?
    case Idle => th.pc.Finished? && th.pc.out.Reported? && th.pc.out.serving.ServingIdle?
    case Down => th.pc.Finished? && th.pc.out.Reported? && th.pc.out.serving.ServingDegraded?
    case Vital => VitalPc(th)
  }

  /** A call has succeeded, or Start; Serving answers OK; the ticker suspends a child. */
  predicate VitalPc(th: Thread) {
    match th.pc
    case DropRead(res) => res.EmbedOk?
    case DropLife(exit) => exit.EndStart? && exit.ok
    case WantWriter(use) => th.op.Ticking? && use.DrainForStop?
    case Finished(out) =>
      (match out
       case Answered => th.op.Embedding? && !th.op.empty
       case Started(ok) => ok
       case Reported(serving) => serving.ServingOK?
       case _ => false)
    case _ => false
  }

  /** EnsureStarted or Start is about to return nil, or has; Serving answers OK. */
  predicate AssuredPc(pc: Pc) {
    match pc
    case DropLife(exit) =>
      (match exit
       case EndStart(ok) => ok
       case EndEnsure(ok) => ok
       case EndRestart(ok) => ok
       case _ => false)
    case DropWriter(exit) => exit.WriterEndRestart? && exit.ok
    case DropRestart(ok) => ok
    case ProbeStamp(_) => true
    case WantRead => true
    case ReadPort => true
    case Calling(_) => true
    case CallStamp => true
    case Finished(out) => (out.Started? && out.ok) || (out.Reported? && out.serving.ServingOK?)
    case _ => false
  }

  /** An embed of at least one text has succeeded. */
  predicate RepliedPc(th: Thread) {
    match th.pc
    case CallStamp => true
    case DropRead(res) => res.EmbedOk?
    case Finished(out) => out.Answered? && th.op.Embedding? && !th.op.empty
    case _ => false
  }

  predicate GonePc(pc: Pc) {
    match pc
    case StopEnd(cause) => true
    case SuspendMark(_) => true
    case DropLife(exit) => exit.EndStop?
    case DropWriter(exit) => exit.WriterEndStop?
    case Finished(out) => out.Stopped?
    case _ => false
  }

  /** Escalating, or making up for a missed probe; the ticker has found nothing to stop. */
  predicate MissedPc(pc: Pc) {
    match pc
    case QuickGrace => true
    case ServeGrace => true
    case DropLife(exit) => exit.Escalate?
    case WantRestart => true
    case RestartGrace => true
    case WantWriter(use) => use.DrainForRestart?
    case Draining(use) => use.DrainForRestart?
    case Finished(out) => out.NothingToStop?
    case _ => false
  }

  /** restartIfDead is called, or judges. */
  predicate StalePc(pc: Pc) {
    match pc
    case DropLife(exit) => exit.Escalate?
    case WantRestart => true
    case RestartGrace => true
    case ProbeRead(kind) => kind.Verdict?
    case ProbeWait(kind, _) => kind.Verdict?
    case WantWriter(use) => use.DrainForRestart?
    case _ => false
  }

  predicate RefusedPc(pc: Pc) {
    match pc
    case DropLife(exit) =>
      (match exit
       case EndStart(ok) => !ok
       case EndEnsure(ok) => !ok
       case EndRestart(ok) => !ok
       case _ => false)
    case DropWriter(exit) => exit.WriterEndRestart? && !exit.ok
    case DropRestart(ok) => !ok
    case Finished(out) => out.NotReady? || (out.Started? && !out.ok)
    case _ => false
  }

  predicate BrokenPc(pc: Pc) {
    (pc.DropRead? && pc.res.EmbedError?) || (pc.Finished? && pc.out.EmbedFailed?)
  }

  predicate AliveWithin(s: State) {
    s.lastAlive > 0 && s.now < s.lastAlive + 15_000
  }

  /** The step that `t` takes sees what the claim says. */
  predicate Sees(claim: Claim, s: State, t: ThreadId, ch: Choice) {
    && t in s.threads
    && match claim
       case Assured => SeesChild(s, s.threads[t].pc, ch)
       case Replied => s.threads[t].pc.Calling? && ch == Proceed && Listening(s, s.threads[t].pc.port)
       case Gone => SeesNone(s, s.threads[t].pc, ch)
       case Missed =>
         || (s.threads[t].pc.ProbeRead? && s.rec.port == 0)
         || (s.threads[t].pc.ProbeWait? && ch != Proceed)
       case Stale => (s.threads[t].pc.QuickGrace? || s.threads[t].pc.RestartGrace?) && !AliveWithin(s)
       case Refused => SeesFailure(s, s.threads[t].pc, ch)
       case Silenced => ch == Refuse && SeesLogEnd(s, s.threads[t].pc)
       case GivenUp => ch == Expire && (s.threads[t].pc.PollWait? || (s.threads[t].pc.WaitPort? && s.ctxDone))
       case Broken => (s.threads[t].pc.Calling? || s.threads[t].pc.CallStamp?) && ch != Proceed
       case Unported => s.threads[t].pc.ReadPort? && s.rec.port == 0
       case Idle => s.threads[t].pc.ServeRead? && s.rec.cmd == None && s.rec.state.ChildSuspended?
       case Down =>
         || (s.threads[t].pc.ServeRead? && s.rec.cmd == None && !s.rec.state.ChildSuspended?)
         || (s.threads[t].pc.ServeGrace? && !AliveWithin(s))
       case Vital =>
         || (s.threads[t].pc.CallStamp? && ch == Proceed) || s.threads[t].pc.ProbeStamp?
         || (s.threads[t].pc.ServeGrace? && AliveWithin(s))
  }

  predicate SeesChild(s: State, pc: Pc, ch: Choice) {
    match pc
    case ProbeWait(_, p) => ch == Proceed && Listening(s, p)
    case QuickGrace => AliveWithin(s)
    case RestartGrace => AliveWithin(s)
    case ServeGrace => AliveWithin(s)
    case _ => false
  }

  predicate SeesNone(s: State, pc: Pc, ch: Choice) {
    match pc
    case StopBegin(_) => s.rec.cmd == None
    case StopWait(_, _, d) => d < |s.kids| && s.kids[d].done
    case KillWait(_, _, d) => d < |s.kids| && s.kids[d].done
    case _ => false
  }

  predicate SeesFailure(s: State, pc: Pc, ch: Choice) {
    match pc
    case CheckContext => !s.ctxSet || s.ctxDone
    case Spawn(_) => ch != Proceed
    case AwaitDone(_, c) => c < |s.kids| && s.kids[c].done
    case StopBegin(_) => s.rec.cmd == None
    case StopEnd(_) => true
    case _ => false
  }

  predicate SeesLogEnd(s: State, pc: Pc) {
    match pc
    case WaitPort(_, c) => c < |s.kids| && s.kids[c].scanEnd
    case PollWait(_, c) => c < |s.kids| && s.kids[c].scanEnd
    case _ => false
  }

  predicate Warranted(claim: Claim, s: State, t: ThreadId, ch: Choice, th': Thread)
    requires t in s.threads
  {
    Makes(claim, th') ==> Makes(claim, s.threads[t]) || Sees(claim, s, t, ch)
  }

  predicate AllWarranted(s: State, t: ThreadId, ch: Choice, s': State)
    requires t in s.threads
  {
    && t in s'.threads
    && var th' := s'.threads[t];
    && Warranted(Assured, s, t, ch, th') && Warranted(Replied, s, t, ch, th') && Warranted(Gone, s, t, ch, th')
    && Warranted(Missed, s, t, ch, th') && Warranted(Stale, s, t, ch, th') && Warranted(Refused, s, t, ch, th')
    && Warranted(Silenced, s, t, ch, th') && Warranted(GivenUp, s, t, ch, th') && Warranted(Broken, s, t, ch, th')
    && Warranted(Unported, s, t, ch, th') && Warranted(Idle, s, t, ch, th') && Warranted(Down, s, t, ch, th')
    && Warranted(Vital, s, t, ch, th')
  }

  lemma TakesLife(s: State, t: ThreadId, ch: Choice, s': State)
    requires t in s.threads && LockStep(s, t) == Some(s')
    requires s.threads[t].pc.WantLife?
    ensures AllWarranted(s, t, ch, s')
  {
    hide Listening, Sees;
  }

  lemma TakesRestart(s: State, t: ThreadId, ch: Choice, s': State)
    requires t in s.threads && LockStep(s, t) == Some(s')
    requires s.threads[t].pc.WantRestart?
    ensures AllWarranted(s, t, ch, s')
  {
    hide Listening, Sees;
  }

  lemma TakesWriter(s: State, t: ThreadId, ch: Choice, s': State)
    requires t in s.threads && LockStep(s, t) == Some(s')
    requires s.threads[t].pc.WantWriter? || s.threads[t].pc.Draining?
    ensures AllWarranted(s, t, ch, s')
  {
    hide Listening, Sees;
  }

  lemma TakesRead(s: State, t: ThreadId, ch: Choice, s': State)
    requires t in s.threads && LockStep(s, t) == Some(s')
    requires s.threads[t].pc.WantRead?
    ensures AllWarranted(s, t, ch, s')
  {
    hide Listening, Sees;
  }

  lemma LeavesEnsure(s: State, t: ThreadId, ch: Choice, s': State)
    requires t in s.threads && LockStep(s, t) == Some(s')
    requires s.threads[t].pc.DropLife? && s.threads[t].pc.exit.EndEnsure? && s.threads[t].pc.exit.ok
    ensures AllWarranted(s, t, ch, s')
  {
    hide Listening, Sees;
  }

  lemma LeavesUnready(s: State, t: ThreadId, ch: Choice, s': State)
    requires t in s.threads && LockStep(s, t) == Some(s')
    requires s.threads[t].pc.DropLife? && s.threads[t].pc.exit.EndEnsure? && !s.threads[t].pc.exit.ok
    ensures AllWarranted(s, t, ch, s')
  {
    hide Listening, Sees;
  }

  lemma LeavesLife(s: State, t: ThreadId, ch: Choice, s': State)
    requires t in s.threads && LockStep(s, t) == Some(s')
    requires s.threads[t].pc.DropLife? && !s.threads[t].pc.exit.EndEnsure?
    ensures AllWarranted(s, t, ch, s')
  {
    hide Listening, Sees;
  }

  lemma LeavesWriter(s: State, t: ThreadId, ch: Choice, s': State)
    requires t in s.threads && LockStep(s, t) == Some(s')
    requires s.threads[t].pc.DropWriter?
    ensures AllWarranted(s, t, ch, s')
  {
    hide Listening, Sees;
  }

  lemma LeavesRestart(s: State, t: ThreadId, ch: Choice, s': State)
    requires t in s.threads && LockStep(s, t) == Some(s')
    requires s.threads[t].pc.DropRestart? && s.threads[t].pc.ok
    ensures AllWarranted(s, t, ch, s')
  {
    hide Listening, Sees;
  }

  lemma LeavesInVain(s: State, t: ThreadId, ch: Choice, s': State)
    requires t in s.threads && LockStep(s, t) == Some(s')
    requires s.threads[t].pc.DropRestart? && !s.threads[t].pc.ok
    ensures AllWarranted(s, t, ch, s')
  {
    hide Listening, Sees;
  }

  lemma ChecksContext(s: State, t: ThreadId, ch: Choice, s': State)
    requires t in s.threads && EnsureStep(s, t) == Some(s')
    requires s.threads[t].pc.CheckContext?
    ensures AllWarranted(s, t, ch, s')
  {
    hide Listening;
  }

  lemma ChecksGrace(s: State, t: ThreadId, ch: Choice, s': State)
    requires t in s.threads && EnsureStep(s, t) == Some(s')
    requires s.threads[t].pc.QuickGrace?
    ensures AllWarranted(s, t, ch, s')
  {
    hide Listening;
  }

  lemma FindsNoChild(s: State, t: ThreadId, ch: Choice, s': State)
    requires t in s.threads && EnsureStep(s, t) == Some(s')
    requires s.threads[t].pc.ReadCmd? && s.rec.cmd == None
    ensures AllWarranted(s, t, ch, s')
  {
    hide Listening, Sees;
  }

  lemma FindsChild(s: State, t: ThreadId, ch: Choice, s': State)
    requires t in s.threads && EnsureStep(s, t) == Some(s')
    requires s.threads[t].pc.ReadCmd? && s.rec.cmd.Some?
    ensures AllWarranted(s, t, ch, s')
  {
    hide Listening, Sees;
  }

  lemma FindsProof(s: State, t: ThreadId, ch: Choice, s': State)
    requires t in s.threads && EnsureStep(s, t) == Some(s')
    requires s.threads[t].pc.RestartGrace? && RecentlyAlive(s)
    ensures AllWarranted(s, t, ch, s')
  {
    hide Listening;
  }

  lemma FindsNoProof(s: State, t: ThreadId, ch: Choice, s': State)
    requires t in s.threads && EnsureStep(s, t) == Some(s')
    requires s.threads[t].pc.RestartGrace? && !RecentlyAlive(s)
    ensures AllWarranted(s, t, ch, s')
  {
    hide Listening, Sees;
  }

  lemma ReadsCondemned(s: State, t: ThreadId, ch: Choice, s': State)
    requires t in s.threads && EnsureStep(s, t) == Some(s')
    requires s.threads[t].pc.RestartReadCmd?
    ensures AllWarranted(s, t, ch, s')
  {
    hide Listening, Sees;
  }

  /** The probes of EnsureStarted and restartIfDead. */
  predicate Judged(k: ProbeKind) {
    k.Quick? || k.Verdict? || k.PostDrain?
  }

  lemma HasNoPort(s: State, t: ThreadId, ch: Choice, s': State)
    requires t in s.threads && ProbeStep(s, t, ch) == Some(s')
    requires s.threads[t].pc.ProbeRead? && s.rec.port == 0 && Judged(s.threads[t].pc.kind)
    ensures AllWarranted(s, t, ch, s')
  {
    hide Listening;
  }

  lemma ReportsNoPort(s: State, t: ThreadId, ch: Choice, s': State)
    requires t in s.threads && ProbeStep(s, t, ch) == Some(s')
    requires s.threads[t].pc.ProbeRead? && s.rec.port == 0 && !Judged(s.threads[t].pc.kind)
    ensures AllWarranted(s, t, ch, s')
  {
    hide Listening;
  }

  lemma HasPort(s: State, t: ThreadId, ch: Choice, s': State)
    requires t in s.threads && ProbeStep(s, t, ch) == Some(s')
    requires s.threads[t].pc.ProbeRead? && s.rec.port != 0
    ensures AllWarranted(s, t, ch, s')
  {
    hide Listening, Sees;
  }

  lemma IsAnswered(s: State, t: ThreadId, ch: Choice, s': State)
    requires t in s.threads && ProbeStep(s, t, ch) == Some(s')
    requires s.threads[t].pc.ProbeWait? && ch == Proceed
    ensures AllWarranted(s, t, ch, s')
  {
    hide Listening;
  }

  lemma Misses(s: State, t: ThreadId, ch: Choice, s': State)
    requires t in s.threads && ProbeStep(s, t, ch) == Some(s')
    requires s.threads[t].pc.ProbeWait? && ch != Proceed && Judged(s.threads[t].pc.kind)
    ensures AllWarranted(s, t, ch, s')
  {
    hide Listening;
  }

  lemma ReportsMiss(s: State, t: ThreadId, ch: Choice, s': State)
    requires t in s.threads && ProbeStep(s, t, ch) == Some(s')
    requires s.threads[t].pc.ProbeWait? && ch != Proceed && !Judged(s.threads[t].pc.kind)
    ensures AllWarranted(s, t, ch, s')
  {
    hide Listening;
  }

  lemma StampsPoll(s: State, t: ThreadId, ch: Choice, s': State)
    requires t in s.threads && ProbeStep(s, t, ch) == Some(s')
    requires s.threads[t].pc.ProbeStamp? && s.threads[t].pc.kind.Poll?
    ensures AllWarranted(s, t, ch, s')
  {
    hide Listening;
  }

  lemma StampsReport(s: State, t: ThreadId, ch: Choice, s': State)
    requires t in s.threads && ProbeStep(s, t, ch) == Some(s')
    requires s.threads[t].pc.ProbeStamp? && s.threads[t].pc.kind.Report?
    ensures AllWarranted(s, t, ch, s')
  {
    hide Listening;
  }

  lemma StampsOther(s: State, t: ThreadId, ch: Choice, s': State)
    requires t in s.threads && ProbeStep(s, t, ch) == Some(s')
    requires s.threads[t].pc.ProbeStamp? && !s.threads[t].pc.kind.Poll? && !s.threads[t].pc.kind.Report?
    ensures AllWarranted(s, t, ch, s')
  {
    hide Listening;
  }

  lemma Spawns(s: State, t: ThreadId, ch: Choice, s': State)
    requires t in s.threads && StartStep(s, t, ch) == Some(s')
    requires s.threads[t].pc.Spawn? && ch == Proceed
    ensures AllWarranted(s, t, ch, s')
  {
    hide Listening, Sees;
  }

  lemma CannotSpawn(s: State, t: ThreadId, ch: Choice, s': State)
    requires t in s.threads && StartStep(s, t, ch) == Some(s')
    requires s.threads[t].pc.Spawn? && ch != Proceed
    ensures AllWarranted(s, t, ch, s')
  {
    hide Listening;
  }

  lemma Publishes(s: State, t: ThreadId, ch: Choice, s': State)
    requires t in s.threads && StartStep(s, t, ch) == Some(s')
    requires s.threads[t].pc.PublishChild?
    ensures AllWarranted(s, t, ch, s')
  {
    hide Listening, Sees;
  }

  lemma WritesPort(s: State, t: ThreadId, ch: Choice, s': State)
    requires t in s.threads && StartStep(s, t, ch) == Some(s')
    requires s.threads[t].pc.WritePort?
    ensures AllWarranted(s, t, ch, s')
  {
    hide Listening, Sees;
  }

  lemma HearsPort(s: State, t: ThreadId, ch: Choice, s': State)
    requires t in s.threads && StartStep(s, t, ch) == Some(s')
    requires s.threads[t].pc.WaitPort? && ch == Proceed
    ensures AllWarranted(s, t, ch, s')
  {
    hide Listening, Sees;
  }

  lemma HearsLogEnd(s: State, t: ThreadId, ch: Choice, s': State)
    requires t in s.threads && StartStep(s, t, ch) == Some(s')
    requires s.threads[t].pc.WaitPort? && ch == Refuse
    ensures AllWarranted(s, t, ch, s')
  {
    hide Listening;
  }

  lemma HearsCancel(s: State, t: ThreadId, ch: Choice, s': State)
    requires t in s.threads && StartStep(s, t, ch) == Some(s')
    requires s.threads[t].pc.WaitPort? && ch == Expire
    ensures AllWarranted(s, t, ch, s')
  {
    hide Listening;
  }

  lemma PollsAgain(s: State, t: ThreadId, ch: Choice, s': State)
    requires t in s.threads && StartStep(s, t, ch) == Some(s')
    requires s.threads[t].pc.PollWait? && ch == Proceed
    ensures AllWarranted(s, t, ch, s')
  {
    hide Listening, Sees;
  }

  lemma StopsPolling(s: State, t: ThreadId, ch: Choice, s': State)
    requires t in s.threads && StartStep(s, t, ch) == Some(s')
    requires s.threads[t].pc.PollWait? && ch == Refuse
    ensures AllWarranted(s, t, ch, s')
  {
    hide Listening;
  }

  lemma RunsOut(s: State, t: ThreadId, ch: Choice, s': State)
    requires t in s.threads && StartStep(s, t, ch) == Some(s')
    requires s.threads[t].pc.PollWait? && ch == Expire
    ensures AllWarranted(s, t, ch, s')
  {
    hide Listening;
  }

  lemma AwaitsDone(s: State, t: ThreadId, ch: Choice, s': State)
    requires t in s.threads && StartStep(s, t, ch) == Some(s')
    requires s.threads[t].pc.AwaitDone? && !s.threads[t].pc.from.ByRestart?
    ensures AllWarranted(s, t, ch, s')
  {
    hide Listening;
  }

  lemma AwaitsReplacement(s: State, t: ThreadId, ch: Choice, s': State)
    requires t in s.threads && StartStep(s, t, ch) == Some(s')
    requires s.threads[t].pc.AwaitDone? && s.threads[t].pc.from.ByRestart?
    ensures AllWarranted(s, t, ch, s')
  {
    hide Listening;
  }

  lemma ReadsForStop(s: State, t: ThreadId, ch: Choice, s': State)
    requires t in s.threads && StopStep(s, t, ch) == Some(s')
    requires s.threads[t].pc.StopReadCmd?
    ensures AllWarranted(s, t, ch, s')
  {
    hide Listening, Sees;
  }

  lemma Suspends(s: State, t: ThreadId, ch: Choice, s': State)
    requires t in s.threads && StopStep(s, t, ch) == Some(s')
    requires s.threads[t].pc.SuspendMark?
    ensures AllWarranted(s, t, ch, s')
  {
    hide Listening, Sees;
  }

  lemma StopsNothing(s: State, t: ThreadId, ch: Choice, s': State)
    requires t in s.threads && StopStep(s, t, ch) == Some(s')
    requires s.threads[t].pc.StopBegin? && s.rec.cmd == None
    ensures AllWarranted(s, t, ch, s')
  {
    hide Listening;
  }

  lemma StopsChild(s: State, t: ThreadId, ch: Choice, s': State)
    requires t in s.threads && StopStep(s, t, ch) == Some(s')
    requires s.threads[t].pc.StopBegin? && s.rec.cmd.Some?
    ensures AllWarranted(s, t, ch, s')
  {
    hide Listening, Sees;
  }

  lemma SignalsVerdict(s: State, t: ThreadId, ch: Choice, s': State)
    requires t in s.threads && StopStep(s, t, ch) == Some(s')
    requires s.threads[t].pc.Signal? && s.threads[t].pc.cause.ForVerdict?
    ensures AllWarranted(s, t, ch, s')
  {
    hide Listening, Sees;
  }

  lemma SignalsOther(s: State, t: ThreadId, ch: Choice, s': State)
    requires t in s.threads && StopStep(s, t, ch) == Some(s')
    requires s.threads[t].pc.Signal? && !s.threads[t].pc.cause.ForVerdict?
    ensures AllWarranted(s, t, ch, s')
  {
    hide Listening, Sees;
  }

  lemma AwaitsExit(s: State, t: ThreadId, ch: Choice, s': State)
    requires t in s.threads && StopStep(s, t, ch) == Some(s')
    requires s.threads[t].pc.StopWait? && ch == Expire
    ensures AllWarranted(s, t, ch, s')
  {
    hide Listening, Sees;
  }

  lemma SeesExit(s: State, t: ThreadId, ch: Choice, s': State)
    requires t in s.threads && StopStep(s, t, ch) == Some(s')
    requires s.threads[t].pc.StopWait? && ch != Expire
    ensures AllWarranted(s, t, ch, s')
  {
    hide Listening;
  }

  lemma AwaitsKill(s: State, t: ThreadId, ch: Choice, s': State)
    requires t in s.threads && StopStep(s, t, ch) == Some(s')
    requires s.threads[t].pc.KillWait?
    ensures AllWarranted(s, t, ch, s')
  {
    hide Listening;
  }

  lemma EndsCleanup(s: State, t: ThreadId, ch: Choice, s': State)
    requires t in s.threads && StopStep(s, t, ch) == Some(s')
    requires s.threads[t].pc.StopEnd? && s.threads[t].pc.cause.ForCleanup?
    ensures AllWarranted(s, t, ch, s')
  {
    hide Listening;
  }

  lemma EndsStop(s: State, t: ThreadId, ch: Choice, s': State)
    requires t in s.threads && StopStep(s, t, ch) == Some(s')
    requires s.threads[t].pc.StopEnd? && !s.threads[t].pc.cause.ForCleanup?
    ensures AllWarranted(s, t, ch, s')
  {
    hide Listening, Sees;
  }

  lemma ReadsNoPort(s: State, t: ThreadId, ch: Choice, s': State)
    requires t in s.threads && EmbedStep(s, t, ch) == Some(s')
    requires s.threads[t].pc.ReadPort? && s.rec.port == 0
    ensures AllWarranted(s, t, ch, s')
  {
    hide Listening;
  }

  lemma ReadsPort(s: State, t: ThreadId, ch: Choice, s': State)
    requires t in s.threads && EmbedStep(s, t, ch) == Some(s')
    requires s.threads[t].pc.ReadPort? && s.rec.port != 0
    ensures AllWarranted(s, t, ch, s')
  {
    hide Listening, Sees;
  }

  lemma Calls(s: State, t: ThreadId, ch: Choice, s': State)
    requires t in s.threads && EmbedStep(s, t, ch) == Some(s')
    requires s.threads[t].pc.Calling?
    ensures AllWarranted(s, t, ch, s')
  {
    hide Listening;
  }

  lemma StampsCall(s: State, t: ThreadId, ch: Choice, s': State)
    requires t in s.threads && EmbedStep(s, t, ch) == Some(s')
    requires s.threads[t].pc.CallStamp?
    ensures AllWarranted(s, t, ch, s')
  {
    hide Listening;
  }

  lemma DropsAnswer(s: State, t: ThreadId, ch: Choice, s': State)
    requires t in s.threads && EmbedStep(s, t, ch) == Some(s')
    requires s.threads[t].pc.DropRead? && s.threads[t].pc.res.EmbedOk?
    ensures AllWarranted(s, t, ch, s')
  {
    hide Listening, Sees;
  }

  lemma DropsError(s: State, t: ThreadId, ch: Choice, s': State)
    requires t in s.threads && EmbedStep(s, t, ch) == Some(s')
    requires s.threads[t].pc.DropRead? && s.threads[t].pc.res.EmbedError?
    ensures AllWarranted(s, t, ch, s')
  {
    hide Listening, Sees;
  }

  lemma TriesAgain(s: State, t: ThreadId, ch: Choice, s': State)
    requires t in s.threads && EmbedStep(s, t, ch) == Some(s')
    requires s.threads[t].pc.DropRead? && s.threads[t].pc.res.EmbedNotStarted?
    ensures AllWarranted(s, t, ch, s')
  {
    hide Listening, Sees;
  }

  lemma AnswersServing(s: State, t: ThreadId, ch: Choice, s': State)
    requires t in s.threads && EmbedStep(s, t, ch) == Some(s')
    requires s.threads[t].pc.ServeRead?
    ensures AllWarranted(s, t, ch, s')
  {
    hide Listening;
  }

  lemma AnswersAfterMiss(s: State, t: ThreadId, ch: Choice, s': State)
    requires t in s.threads && EmbedStep(s, t, ch) == Some(s')
    requires s.threads[t].pc.ServeGrace?
    ensures AllWarranted(s, t, ch, s')
  {
    hide Listening;
  }

  /** No step of a thread makes a claim that it, or an earlier step of its call, has not seen to be so. */
  lemma StepWarranted(s: State, t: ThreadId, ch: Choice, s': State)
    requires t in s.threads && ThreadStep(s, t, ch) == Some(s')
    ensures AllWarranted(s, t, ch, s')
  {
    hide LockStep, EnsureStep, ProbeStep, StartStep, StopStep, EmbedStep, AllWarranted;
    match s.threads[t].pc
    case WantLife(_) => TakesLife(s, t, ch, s');
    case WantRestart => TakesRestart(s, t, ch, s');
    case WantWriter(_) => TakesWriter(s, t, ch, s');
    case Draining(_) => TakesWriter(s, t, ch, s');
    case WantRead => TakesRead(s, t, ch, s');
    case DropLife(_) =>
      if !s.threads[t].pc.exit.EndEnsure? { LeavesLife(s, t, ch, s'); }
      else if s.threads[t].pc.exit.ok { LeavesEnsure(s, t, ch, s'); } else { LeavesUnready(s, t, ch, s'); }
    case DropWriter(_) => LeavesWriter(s, t, ch, s');
    case DropRestart(_) =>
      if s.threads[t].pc.ok { LeavesRestart(s, t, ch, s'); } else { LeavesInVain(s, t, ch, s'); }
    case CheckContext => ChecksContext(s, t, ch, s');
    case ReadCmd =>
      if s.rec.cmd == None { FindsNoChild(s, t, ch, s'); } else { FindsChild(s, t, ch, s'); }
    case QuickGrace => ChecksGrace(s, t, ch, s');
    case RestartGrace =>
      if RecentlyAlive(s) { FindsProof(s, t, ch, s'); } else { FindsNoProof(s, t, ch, s'); }
    case RestartReadCmd => ReadsCondemned(s, t, ch, s');
    case ProbeRead(_) =>
      if s.rec.port != 0 { HasPort(s, t, ch, s'); }
      else if Judged(s.threads[t].pc.kind) { HasNoPort(s, t, ch, s'); } else { ReportsNoPort(s, t, ch, s'); }
    case ProbeWait(_, _) =>
      if ch == Proceed { IsAnswered(s, t, ch, s'); }
      else if Judged(s.threads[t].pc.kind) { Misses(s, t, ch, s'); } else { ReportsMiss(s, t, ch, s'); }
    case ProbeStamp(_) =>
      match s.threads[t].pc.kind {
        case Poll(_, _) => StampsPoll(s, t, ch, s');
        case Report => StampsReport(s, t, ch, s');
        case _ => StampsOther(s, t, ch, s');
      }
    case Spawn(_) =>
      if ch == Proceed { Spawns(s, t, ch, s'); } else { CannotSpawn(s, t, ch, s'); }
    case PublishChild(_, _) => Publishes(s, t, ch, s');
    case WaitPort(_, _) =>
      match ch {
        case Proceed => HearsPort(s, t, ch, s');
        case Refuse => HearsLogEnd(s, t, ch, s');
        case Expire => HearsCancel(s, t, ch, s');
      }
    case WritePort(_, _, _) => WritesPort(s, t, ch, s');
    case PollWait(_, _) =>
      match ch {
        case Proceed => PollsAgain(s, t, ch, s');
        case Refuse => StopsPolling(s, t, ch, s');
        case Expire => RunsOut(s, t, ch, s');
      }
    case AwaitDone(_, _) =>
      if s.threads[t].pc.from.ByRestart? { AwaitsReplacement(s, t, ch, s'); } else { AwaitsDone(s, t, ch, s'); }
    case StopReadCmd => ReadsForStop(s, t, ch, s');
    case StopBegin(_) =>
      if s.rec.cmd == None { StopsNothing(s, t, ch, s'); } else { StopsChild(s, t, ch, s'); }
    case Signal(_, _, _) =>
      if s.threads[t].pc.cause.ForVerdict? { SignalsVerdict(s, t, ch, s'); } else { SignalsOther(s, t, ch, s'); }
    case StopWait(_, _, _) =>
      if ch == Expire { AwaitsExit(s, t, ch, s'); } else { SeesExit(s, t, ch, s'); }
    case KillWait(_, _, _) => AwaitsKill(s, t, ch, s');
    case StopEnd(_) =>
      if s.threads[t].pc.cause.ForCleanup? { EndsCleanup(s, t, ch, s'); } else { EndsStop(s, t, ch, s'); }
    case SuspendMark(_) => Suspends(s, t, ch, s');
    case ReadPort =>
      if s.rec.port == 0 { ReadsNoPort(s, t, ch, s'); } else { ReadsPort(s, t, ch, s'); }
    case Calling(_) => Calls(s, t, ch, s');
    case CallStamp => StampsCall(s, t, ch, s');
    case DropRead(_) =>
      match s.threads[t].pc.res {
        case EmbedOk => DropsAnswer(s, t, ch, s');
        case EmbedNotStarted => TriesAgain(s, t, ch, s');
        case EmbedError => DropsError(s, t, ch, s');
      }
    case ServeRead => AnswersServing(s, t, ch, s');
    case ServeGrace => AnswersAfterMiss(s, t, ch, s');
    case Finished(_) =>
  }

  // ----- over runs -----

  /** The step begins a new call, or a new attempt of one. */
  predicate Begins(s: State, t: ThreadId, a: Action) {
    || (a.Begin? && a.tid == t)
    || (a.Act? && a.tid == t && t in s.threads && s.threads[t].pc.WantLife?
        && (s.threads[t].pc.use.LifeForStart? || s.threads[t].pc.use.LifeForEnsure?))
  }

  /** Some step of the present attempt of `t` has seen what the claim says. */
  predicate Seen(claim: Claim, s0: State, acts: seq<Action>, t: ThreadId) {
    if acts == [] then false
    else
      var front, a := acts[..|acts| - 1], acts[|acts| - 1];
      var r := Run(s0, front);
      && r.Some? && !Begins(r.value, t, a)
      && (Seen(claim, s0, front, t) || (a.Act? && a.tid == t && Sees(claim, r.value, t, a.choice)))
  }

  lemma BeginningClaimsNothing(s: State, t: ThreadId, a: Action, s': State, claim: Claim)
    requires Step(s, a) == Some(s') && Begins(s, t, a) && t in s'.threads
    ensures !Makes(claim, s'.threads[t])
  {
    hide EnsureStep, ProbeStep, StartStep, StopStep, EmbedStep;
  }

  /** A thread moves by its own steps only. */
  lemma OthersStay(s: State, a: Action, s': State, t: ThreadId)
    requires Step(s, a) == Some(s') && t in s'.threads && !((a.Begin? || a.Act?) && a.tid == t)
    ensures t in s.threads && s'.threads[t] == s.threads[t]
  {
    hide ThreadStep, StopWindow;
    if a.Act? {
      StepShape(s, a.tid, a.choice, s');
    }
  }

  lemma OneWarranted(s: State, t: ThreadId, ch: Choice, s': State, claim: Claim)
    requires t in s.threads && AllWarranted(s, t, ch, s')
    ensures Warranted(claim, s, t, ch, s'.threads[t])
  {
    hide Warranted;
    match claim
    case Assured =>
    case _ =>
  }

  /**
    In every run, whatever a thread claims was seen by a step of that very attempt: EnsureStarted answers nil
    only on a probe answered by a running child or on a proof of life within the grace, and an error only
    without a context or after a failed start; it judges a child only after a missed probe and with no such
    proof of life; Serving's answers, Stop's end and the outcome of a call rest on what was found likewise.
  */
  lemma {:induction false} ClaimsAreSeen(s0: State, acts: seq<Action>, s: State, t: ThreadId, claim: Claim)
    requires Init(s0) && Run(s0, acts) == Some(s) && t in s.threads && Makes(claim, s.threads[t])
    ensures Seen(claim, s0, acts, t)
  {
    hide Step, Makes, Sees, AllWarranted;
    var front, a := acts[..|acts| - 1], acts[|acts| - 1];
    var before := Run(s0, front).value;
    if Begins(before, t, a) {
      BeginningClaimsNothing(before, t, a, s, claim);
    } else if a.Act? && a.tid == t {
      ActIsThreadStep(before, t, a.choice, s);
      StepWarranted(before, t, a.choice, s);
      OneWarranted(before, t, a.choice, s, claim);
      if Makes(claim, before.threads[t]) {
        ClaimsAreSeen(s0, front, before, t, claim);
      }
    } else {
      OthersStay(before, a, s, t);
      ClaimsAreSeen(s0, front, before, t, claim);
    }
  }

  lemma ActIsThreadStep(s: State, t: ThreadId, ch: Choice, s': State)
    requires Step(s, Act(t, ch)) == Some(s')
    ensures t in s.threads && ThreadStep(s, t, ch) == Some(s')
  {
    hide ThreadStep;
  }

  // ----- the decisions -----

  /** EnsureStarted looks for the child exactly if Start has been called and its context is not done. */
  lemma RefusesIff(s: State, t: ThreadId, ch: Choice, s': State)
    requires t in s.threads && s.threads[t].pc == CheckContext && Step(s, Act(t, ch)) == Some(s')
    ensures t in s'.threads
    ensures s'.threads[t].pc == DropLife(EndEnsure(false)) <==> !s.ctxSet || s.ctxDone
    ensures s'.threads[t].pc == ReadCmd <==> s.ctxSet && !s.ctxDone
  {
    hide LockStep, ProbeStep, StartStep, StopStep, EmbedStep;
  }

  /** With a child assured, a batch of no texts is answered at once, and every other call goes to ask the child. */
  lemma AsksUnlessEmpty(s: State, t: ThreadId, ch: Choice, s': State)
    requires t in s.threads && Step(s, Act(t, ch)) == Some(s')
    requires s.threads[t].pc == DropLife(EndEnsure(true)) || s.threads[t].pc == DropRestart(true)
    ensures t in s'.threads
    ensures s'.threads[t].pc == Finished(Answered) <==> s.threads[t].op == Embedding(true)
    ensures s'.threads[t].pc == WantRead <==> s.threads[t].op != Embedding(true)
  {
    hide EnsureStep, ProbeStep, StartStep, StopStep, EmbedStep;
  }

  /** After a missed probe EnsureStarted escalates exactly if there is no proof of life within the grace. */
  lemma EscalatesIff(s: State, t: ThreadId, ch: Choice, s': State)
    requires t in s.threads && s.threads[t].pc == QuickGrace && Step(s, Act(t, ch)) == Some(s')
    ensures t in s'.threads
    ensures s'.threads[t].pc == DropLife(Escalate) <==> s.lastAlive == 0 || s.lastAlive + 15_000 <= s.now
    ensures s'.threads[t].pc == DropLife(EndEnsure(true)) <==> s.lastAlive > 0 && s.now < s.lastAlive + 15_000
  {
    hide LockStep, ProbeStep, StartStep, StopStep, EmbedStep;
  }

  /** And restartIfDead judges the child exactly then. */
  lemma JudgesIff(s: State, t: ThreadId, ch: Choice, s': State)
    requires t in s.threads && s.threads[t].pc == RestartGrace && Step(s, Act(t, ch)) == Some(s')
    ensures t in s'.threads
    ensures s'.threads[t].pc == ProbeRead(Verdict) <==> s.lastAlive == 0 || s.lastAlive + 15_000 <= s.now
    ensures s'.threads[t].pc == DropRestart(true) <==> s.lastAlive > 0 && s.now < s.lastAlive + 15_000
  {
    hide LockStep, ProbeStep, StartStep, StopStep, EmbedStep;
  }

  /** The proof of life moves to the present exactly when a completed call or a health check is stamped. */
  lemma LifeIsStampedIff(s: State, a: Action, s': State)
    requires Step(s, a) == Some(s') && s.lastAlive < s.now
    ensures s'.lastAlive != s.lastAlive <==>
              a.Act? && a.tid in s.threads && (s.threads[a.tid].pc.CallStamp? || s.threads[a.tid].pc.ProbeStamp?)
    ensures s'.lastAlive == s.lastAlive || s'.lastAlive == s.now
  {
    hide ThreadStep, StopWindow;
    if a.Act? {
      StepShape(s, a.tid, a.choice, s');
    }
  }
}
