/**
  Runs that do happen: a hung child is killed on a verdict and replaced, and a suspended one is reported as idle.
  Each goes on from any reachable state that meets the conditions given.
*/
module ChildScenarios {
  import opened Wrappers
  import opened ChildRecord
  import opened ChildLifecycle
  import opened ChildInvariant
  import opened ChildEvents
  import opened ChildRuns
  import opened ChildSevered

  /** Some run goes on from `o` to `s`. */
  ghost predicate Leads(o: State, s: State) {
    exists acts: seq<Action> :: Run(o, acts) == Some(s)
  }

  lemma Stay(s: State)
    ensures Leads(s, s)
  {
    assert Run(s, []) == Some(s);
  }

  lemma OneMore(o: State, acts: seq<Action>, s: State, a: Action)
    requires Run(o, acts) == Some(s)
    ensures Run(o, acts + [a]) == Step(s, a)
  {
    hide Step;
    var longer := acts + [a];
    assert longer[..|longer| - 1] == acts && longer[|longer| - 1] == a;
  }

  lemma Move(o: State, s: State, a: Action, s': State)
    requires Leads(o, s) && Step(s, a) == Some(s')
    ensures Leads(o, s')
  {
    hide Step, Run;
    var acts: seq<Action> :| Run(o, acts) == Some(s);
    OneMore(o, acts, s, a);
  }

  lemma {:induction false} LeadsOn(o: State, acts: seq<Action>, s: State)
    requires Reachable(o) && Run(o, acts) == Some(s)
    ensures Reachable(s)
    decreases |acts|
  {
    hide Step, Reachable;
    if acts != [] {
      var before := Run(o, acts[..|acts| - 1]).value;
      LeadsOn(o, acts[..|acts| - 1], before);
      ReachStep(before, acts[|acts| - 1], s);
    }
  }

  lemma StillReachable(o: State, s: State)
    requires Reachable(o) && Leads(o, s)
    ensures Reachable(s)
  {
    hide Run, Reachable;
    var acts: seq<Action> :| Run(o, acts) == Some(s);
    LeadsOn(o, acts, s);
  }

  // ----- a request finds its child hung -----

  /** Nobody holds any lock. */
  predicate Unlocked(s: State) {
    s.restart == None && s.writer == None && s.readers == {} && s.life == None
  }

  /** No proof of life is within the grace. */
  predicate LifeLost(s: State) {
    s.lastAlive == 0 || s.lastAlive + ALIVE_GRACE <= s.now
  }

  /** A request that has just begun, with its quick probe before it. */
  function Caller(s: State): Thread {
    Asking(s, ProbeRead(Quick), s.rec.cmd)
  }

  lemma FindsChild(o: State, s: State, t: ThreadId)
    requires Leads(o, s) && s.ctxSet && !s.ctxDone && s.life == None && t !in s.threads && s.rec.cmd.Some?
    ensures Leads(o, Put(s.(life := Some(t)), t, Caller(s)))
  {
    hide Leads, ProbeStep, StartStep, StopStep, EmbedStep, StopWindow, Listening;
    var begun := Put(s, t, Caller(s).(pc := WantLife(LifeForEnsure), seen := None));
    Move(o, s, Begin(t, Embedding(false)), begun);
    var inside := Goto(begun.(life := Some(t)), t, CheckContext);
    Move(o, begun, Act(t, Proceed), inside);
    var looking := Goto(inside, t, ReadCmd);
    Move(o, inside, Act(t, Proceed), looking);
    var found := Put(s.(life := Some(t)), t, Caller(s));
    assert found.threads == looking.threads[t := Caller(s)];
    Move(o, looking, Act(t, Proceed), found);
  }

  lemma ProbeAndMiss(o: State, s: State, t: ThreadId, kind: ProbeKind)
    requires Leads(o, s) && At(s, t, ProbeRead(kind)) && s.rec.port != 0 && !kind.PostDrain?
    ensures Leads(o, Goto(s, t, ProbeMiss(kind)))
  {
    hide Leads, LockStep, EnsureStep, StartStep, StopStep, EmbedStep, StopWindow, Listening, ProbeMiss;
    var waiting := Goto(s, t, ProbeWait(kind, s.rec.port));
    Move(o, s, Act(t, Proceed), waiting);
    assert Goto(waiting, t, ProbeMiss(kind)).threads == Goto(s, t, ProbeMiss(kind)).threads;
    Move(o, waiting, Act(t, Refuse), Goto(s, t, ProbeMiss(kind)));
  }

  lemma Escalates(o: State, s: State, t: ThreadId)
    requires Leads(o, s) && At(s, t, QuickGrace) && LifeLost(s)
    ensures Leads(o, Goto(s.(life := None), t, WantRestart))
  {
    hide Leads, ProbeStep, StartStep, StopStep, EmbedStep, StopWindow, Listening;
    var leaving, out := Goto(s, t, DropLife(Escalate)), Goto(s.(life := None), t, WantRestart);
    Move(o, s, Act(t, Proceed), leaving);
    assert out.threads == Goto(leaving, t, WantRestart).threads;
    Move(o, leaving, Act(t, Proceed), out);
  }

  /** The thread once it judges, before its first probe. */
  function Judge(s: State, th: Thread): Thread {
    th.(grace := Some(GraceCheck(s.now, s.lastAlive)), verdict := None, killed := false, pc := ProbeRead(Verdict))
  }

  lemma Judges(o: State, s: State, t: ThreadId)
    requires Leads(o, s) && At(s, t, WantRestart) && s.restart == None && LifeLost(s)
    ensures Leads(o, Put(s.(restart := Some(t)), t, Judge(s, s.threads[t])))
  {
    hide Leads, ProbeStep, StartStep, StopStep, EmbedStep, StopWindow, Listening;
    var inside := Goto(s.(restart := Some(t)), t, RestartGrace);
    Move(o, s, Act(t, Proceed), inside);
    var judging := Put(s.(restart := Some(t)), t, Judge(s, s.threads[t]));
    assert judging.threads == inside.threads[t := Judge(s, s.threads[t])];
    Move(o, inside, Act(t, Proceed), judging);
  }

  function LifeUseOf(use: WriterUse): LifeUse {
    if use.DrainForStop? then LifeForStop else LifeForRestart
  }

  /** Holding the drained writer side and lifecycleMu. */
  function Drained(s: State, t: ThreadId): State {
    s.(writer := Some(t), drained := true, pendingSince := s.now, life := Some(t))
  }

  lemma Drains(o: State, s: State, t: ThreadId, use: WriterUse)
    requires Leads(o, s) && At(s, t, WantWriter(use)) && s.writer == None && s.readers == {} && s.life == None
    ensures Leads(o, Goto(Drained(s, t), t, UnderLife(LifeUseOf(use))))
  {
    hide Leads, EnsureStep, ProbeStep, StartStep, StopStep, EmbedStep, StopWindow, Listening, UnderLife;
    var pending := Goto(s.(writer := Some(t), drained := false, pendingSince := s.now), t, Draining(use));
    Move(o, s, Act(t, Proceed), pending);
    var alone := Goto(pending.(drained := true), t, WantLife(LifeUseOf(use)));
    Move(o, pending, Act(t, Proceed), alone);
    var both := Goto(Drained(s, t), t, UnderLife(LifeUseOf(use)));
    assert both.threads == Goto(alone, t, UnderLife(LifeUseOf(use))).threads;
    Move(o, alone, Act(t, Proceed), both);
  }

  /** The thread that has missed the probe after the drain. */
  function Condemner(s: State, t: ThreadId, c: ChildId): Thread
    requires t in s.threads
  {
    var held := s.drained && s.writer == Some(t) && s.life == Some(t) && s.readers == {};
    s.threads[t].(verdict := Some(VerdictProbe(c, s.rec.port, held)), pc := StopBegin(ForVerdict))
  }

  lemma Condemns(o: State, s: State, t: ThreadId, c: ChildId)
    requires Leads(o, s) && At(s, t, RestartReadCmd) && s.rec.cmd == Some(c) && s.rec.port != 0
    ensures Leads(o, Put(s, t, Condemner(s, t, c)))
  {
    hide Leads, LockStep, StartStep, StopStep, EmbedStep, StopWindow, Listening;
    var reading := Goto(s, t, ProbeRead(PostDrain(c)));
    Move(o, s, Act(t, Proceed), reading);
    var waiting := Goto(reading, t, ProbeWait(PostDrain(c), s.rec.port));
    Move(o, reading, Act(t, Proceed), waiting);
    assert Put(waiting, t, Condemner(s, t, c)).threads == Put(s, t, Condemner(s, t, c)).threads;
    Move(o, waiting, Act(t, Refuse), Put(s, t, Condemner(s, t, c)));
  }

  // ----- a child is stopped -----

  lemma Marks(o: State, s: State, t: ThreadId, cause: StopCaller, c: ChildId)
    requires Leads(o, s) && At(s, t, StopBegin(cause)) && s.rec.cmd == Some(c) && s.rec.cmdDone == Some(c)
    ensures Leads(o, Goto(s.(rec := StopMarked(s.rec)), t, Signal(cause, c, c)))
  {
    hide Leads, LockStep, EnsureStep, ProbeStep, StartStep, EmbedStep, StopWindow, Listening;
    Move(o, s, Act(t, Proceed), Goto(s.(rec := StopMarked(s.rec)), t, Signal(cause, c, c)));
  }

  /** The state after the signal. */
  function Signalled(s: State, t: ThreadId, cause: StopCaller, c: ChildId): State
    requires t in s.threads
  {
    var kills := if cause == ForVerdict then s.kills + [Kill(s.now, s.failedRestarts)] else s.kills;
    var killed := s.threads[t].killed || cause == ForVerdict;
    Put(s.(kills := kills), t, s.threads[t].(killed := killed, pc := StopWait(cause, c, c)))
  }

  lemma Signals(o: State, s: State, t: ThreadId, cause: StopCaller, c: ChildId)
    requires Leads(o, s) && At(s, t, Signal(cause, c, c))
    ensures Leads(o, Signalled(s, t, cause, c))
  {
    hide Leads, LockStep, EnsureStep, ProbeStep, StartStep, EmbedStep, StopWindow, Listening;
    Move(o, s, Act(t, Proceed), Signalled(s, t, cause, c));
  }

  /** The state after the child has exited and its watcher is done. */
  function Died(s: State, c: ChildId): State
    requires c < |s.kids|
  {
    var kid := s.kids[c].(exited := true, leftInStop := StopWindow(s), done := true);
    s.(rec := Reaped(s.rec, c), reaped := s.reaped + {c}, kids := s.kids[c := kid])
  }

  lemma Dies(o: State, s: State, c: ChildId)
    requires Leads(o, s) && s.lastPublished == Some(c)
    requires c < |s.kids| && !s.kids[c].exited && !s.kids[c].done && c !in s.reaped
    ensures Leads(o, Died(s, c))
  {
    hide Leads, ThreadStep, StopWindow, Listening, Reaped;
    var gone := s.(kids := s.kids[c := s.kids[c].(exited := true)]);
    Move(o, s, Exit(c), gone);
    assert StopWindow(gone) == StopWindow(s) by { SameWindow(s, gone); }
    var cleared := Step(gone, Reap(c)).value;
    Move(o, gone, Reap(c), cleared);
    assert Died(s, c).kids == cleared.kids[c := cleared.kids[c].(done := true)];
    Move(o, cleared, CloseDone(c), Died(s, c));
  }

  lemma SameWindow(s: State, s': State)
    requires s'.life == s.life && s'.threads == s.threads
    ensures StopWindow(s') == StopWindow(s)
  {
  }

  lemma Returns(o: State, s: State, t: ThreadId, cause: StopCaller, c: ChildId)
    requires Leads(o, s) && At(s, t, StopWait(cause, c, c)) && !cause.ForCleanup? && c < |s.kids| && s.kids[c].done
    ensures Leads(o, Goto(s.(rec := s.rec.(stopping := false)), t, StopReturn(cause)))
  {
    hide Leads, LockStep, EnsureStep, ProbeStep, StartStep, EmbedStep, StopWindow, Listening, StopReturn;
    var ending := Goto(s, t, StopEnd(cause));
    Move(o, s, Act(t, Proceed), ending);
    var back := Goto(s.(rec := s.rec.(stopping := false)), t, StopReturn(cause));
    assert back.threads == Goto(ending, t, StopReturn(cause)).threads;
    Move(o, ending, Act(t, Proceed), back);
  }

  /** The state in which stopLocked returns, from the one in which it signals. */
  function StoppedFrom(s: State, t: ThreadId, cause: StopCaller, c: ChildId): State
    requires t in s.threads && c < |s.kids|
  {
    var died := Died(Signalled(s, t, cause, c), c);
    Goto(died.(rec := died.rec.(stopping := false)), t, StopReturn(cause))
  }

  lemma IsStopped(o: State, s: State, t: ThreadId, cause: StopCaller, c: ChildId)
    requires Leads(o, s) && At(s, t, Signal(cause, c, c)) && !cause.ForCleanup? && s.lastPublished == Some(c)
    requires c < |s.kids| && !s.kids[c].exited && !s.kids[c].done && c !in s.reaped
    ensures Leads(o, StoppedFrom(s, t, cause, c))
  {
    hide Leads, Step, Reaped, StopReturn, StopWindow;
    Signals(o, s, t, cause, c);
    Dies(o, Signalled(s, t, cause, c), c);
    Returns(o, Died(Signalled(s, t, cause, c), c), t, cause, c);
  }

  /** About to signal `c`, with the children otherwise as `s` has them. */
  predicate Signalling(s: State, s': State, t: ThreadId, cause: StopCaller, c: ChildId) {
    && At(s', t, Signal(cause, c, c)) && s'.threads.Keys == s.threads.Keys + {t}
    && s'.kids == s.kids && s'.rec.cmd == Some(c) && s'.lastPublished == s.lastPublished && s'.reaped == s.reaped
  }

  // ----- a hung child is killed -----

  lemma ChildIsUp(s: State, c: ChildId)
    requires Reachable(s) && s.life == None && s.rec.cmd == Some(c)
    ensures s.rec.port != 0 && s.rec.cmdDone == Some(c) && s.lastPublished == Some(c) && c < |s.kids|
    ensures c !in s.reaped && !s.kids[c].done
  {
    hide Reachable, LocksOk, ThreadsOk, ClockOk, ReadersOk, TimedOk, Held, StopWindow;
    ReachableInv(s);
  }

  /** The state in which the request asks for the writer side, from the one in which it began. */
  function ReadyToDrain(s: State, t: ThreadId): State {
    Put(s.(restart := Some(t)), t, Judge(s, Caller(s)).(pc := WantWriter(DrainForRestart)))
  }

  lemma ComesToJudge(s: State, t: ThreadId)
    requires Unlocked(s) && LifeLost(s) && s.ctxSet && !s.ctxDone && t !in s.threads
    requires s.rec.cmd.Some? && s.rec.port != 0
    ensures Leads(s, Put(s, t, Caller(s).(pc := WantRestart)))
  {
    hide Leads, Step, Listening;
    Stay(s);
    FindsChild(s, s, t);
    var probing := Put(s.(life := Some(t)), t, Caller(s));
    ProbeAndMiss(s, probing, t, Quick);
    Escalates(s, Goto(probing, t, QuickGrace), t);
    var out := Put(s, t, Caller(s).(pc := WantRestart));
    assert out.threads == Goto(Goto(probing, t, QuickGrace), t, WantRestart).threads;
    assert out == Goto(Goto(probing, t, QuickGrace).(life := None), t, WantRestart);
  }

  lemma JudgesInVain(o: State, s: State, t: ThreadId)
    requires Leads(o, Put(s, t, Caller(s).(pc := WantRestart))) && s.restart == None && LifeLost(s) && s.rec.port != 0
    ensures Leads(o, ReadyToDrain(s, t))
  {
    hide Leads, Step, Listening;
    var out := Put(s, t, Caller(s).(pc := WantRestart));
    Judges(o, out, t);
    var judging := Put(out.(restart := Some(t)), t, Judge(out, out.threads[t]));
    ProbeAndMiss(o, judging, t, Verdict);
    assert ReadyToDrain(s, t).threads == Goto(judging, t, WantWriter(DrainForRestart)).threads;
    assert ReadyToDrain(s, t) == Goto(judging, t, WantWriter(DrainForRestart));
  }

  lemma DrainsAndCondemns(o: State, s: State, t: ThreadId, c: ChildId)
    requires Leads(o, ReadyToDrain(s, t)) && Unlocked(s)
    requires s.rec.cmd == Some(c) && s.rec.cmdDone == Some(c) && s.rec.port != 0
    ensures exists s': State :: Leads(o, s') && Signalling(s, s', t, ForVerdict, c)
  {
    hide Leads, Step, LifeLost;
    var ready := ReadyToDrain(s, t);
    Drains(o, ready, t, DrainForRestart);
    var holding := Goto(Drained(ready, t), t, RestartReadCmd);
    Condemns(o, holding, t, c);
    var condemned := Put(holding, t, Condemner(holding, t, c));
    Marks(o, condemned, t, ForVerdict, c);
    var out := Goto(condemned.(rec := StopMarked(condemned.rec)), t, Signal(ForVerdict, c, c));
    assert Signalling(s, out, t, ForVerdict, c);
  }

  lemma IsCondemned(s: State, t: ThreadId, c: ChildId)
    requires Unlocked(s) && LifeLost(s) && s.ctxSet && !s.ctxDone && t !in s.threads
    requires s.rec.cmd == Some(c) && s.rec.cmdDone == Some(c) && s.rec.port != 0
    ensures exists s': State :: Leads(s, s') && Signalling(s, s', t, ForVerdict, c)
  {
    hide Leads, Signalling, ReadyToDrain;
    ComesToJudge(s, t);
    JudgesInVain(s, s, t);
    DrainsAndCondemns(s, s, t, c);
  }

  /**
    From every reachable state in which a child is up, nobody holds a lock and no proof of life is within the
    grace, a request whose probes are all missed goes on to signal that child, which is then gone for good: its
    replacement is about to be started.
  */
  lemma HungChildIsReplaced(s: State, t: ThreadId, c: ChildId)
    requires Reachable(s) && Unlocked(s) && LifeLost(s) && s.ctxSet && !s.ctxDone && t !in s.threads
    requires s.rec.cmd == Some(c) && c < |s.kids| && !s.kids[c].exited
    ensures exists s1: State, s2: State ::
              && Leads(s, s1) && At(s1, t, Signal(ForVerdict, c, c)) && s1.kids == s.kids
              && Leads(s1, s2) && At(s2, t, Spawn(ByRestart)) && c < |s2.kids| && s2.kids[c].exited
  {
    hide Reachable, Leads, Step, Reaped, StopWindow;
    ChildIsUp(s, c);
    IsCondemned(s, t, c);
    var s1 :| Leads(s, s1) && Signalling(s, s1, t, ForVerdict, c);
    Stay(s1);
    IsStopped(s1, s1, t, ForVerdict, c);
    assert At(StoppedFrom(s1, t, ForVerdict, c), t, Spawn(ByRestart));
  }

  /** Such a state is reached: after Start, when the child has been silent for the grace. */
  lemma VerdictKillHappens()
    ensures exists s: State, t: ThreadId, c: ChildId ::
              && Reachable(s) && At(s, t, Signal(ForVerdict, c, c)) && c < |s.kids| && !s.kids[c].exited
  {
    hide Reachable, Leads, ThreadStep;
    FirstStart();
    var s := Take(STARTED, Tick(ALIVE_GRACE));
    IsCondemned(s, 1, 0);
    var s' :| Leads(s, s') && Signalling(s, s', 1, ForVerdict, 0);
    StillReachable(s, s');
  }

  // ----- a suspended child is reported as idle -----

  /** A Stop has just begun. */
  function BegunStop(s: State, t: ThreadId): State {
    var th := Thread(Stopping, WantWriter(DrainForStop), 0, None, [], s.reaped, 0, None, None, false);
    Put(s, t, th)
  }

  /** It holds its locks, and has seen the child running. */
  function Noticed(s: State, t: ThreadId): State {
    Goto(Drained(BegunStop(s, t), t), t, StopBegin(ForSuspend(true)))
  }

  lemma SeesRunning(s: State, t: ThreadId)
    requires Unlocked(s) && t !in s.threads && s.rec.cmd.Some?
    ensures Leads(s, Noticed(s, t))
  {
    hide Leads, EnsureStep, ProbeStep, StartStep, EmbedStep, StopWindow, Listening;
    Stay(s);
    Move(s, s, Begin(t, Stopping), BegunStop(s, t));
    Drains(s, BegunStop(s, t), t, DrainForStop);
    var holding := Goto(Drained(BegunStop(s, t), t), t, StopReadCmd);
    assert Noticed(s, t).threads == Goto(holding, t, StopBegin(ForSuspend(true))).threads;
    Move(s, holding, Act(t, Proceed), Noticed(s, t));
  }

  /** The Stop has ended, and the state says suspended. */
  predicate Suspended(s: State, t: ThreadId) {
    At(s, t, Finished(Stopped)) && s.rec.cmd == None && s.rec.state == ChildSuspended
  }

  lemma Suspends(o: State, s: State, t: ThreadId)
    requires Leads(o, s) && At(s, t, SuspendMark(true)) && s.rec.cmd == None
    ensures exists s': State :: Leads(o, s') && Suspended(s', t) && s'.threads.Keys == s.threads.Keys
  {
    hide Leads, EnsureStep, ProbeStep, StartStep, EmbedStep, StopWindow, Listening;
    var marked := Goto(s.(rec := s.rec.(state := ChildSuspended)), t, DropLife(EndStop));
    Move(o, s, Act(t, Proceed), marked);
    var free := Goto(marked.(life := None), t, DropWriter(WriterEndStop));
    Move(o, marked, Act(t, Proceed), free);
    var done := Goto(free.(writer := None, drained := false), t, Finished(Stopped));
    Move(o, free, Act(t, Proceed), done);
    assert Suspended(done, t);
  }

  lemma AsksAfterwards(o: State, s: State, t: ThreadId, u: ThreadId)
    requires Leads(o, s) && Suspended(s, t) && u !in s.threads
    ensures exists s': State ::
              Leads(o, s') && At(s', t, Finished(Stopped)) && At(s', u, Finished(Reported(ServingIdle)))
  {
    hide Leads, LockStep, EnsureStep, ProbeStep, StartStep, StopStep, StopWindow, Listening;
    var asking := Put(s, u, Thread(Reporting, ServeRead, 0, None, [], s.reaped, 0, None, None, false));
    Move(o, s, Begin(u, Reporting), asking);
    var told := Goto(asking, u, Finished(Reported(ServingIdle)));
    Move(o, asking, Act(u, Proceed), told);
    assert At(told, t, Finished(Stopped));
  }

  /**
    From every reachable state in which a child is running and nobody holds a lock, a Stop can run to its end;
    and whoever then asks, hears IDLE.
  */
  lemma StoppedChildIsIdle(s: State, t: ThreadId, u: ThreadId, c: ChildId)
    requires Reachable(s) && Unlocked(s) && t !in s.threads && u !in s.threads && t != u
    requires s.rec.cmd == Some(c) && c < |s.kids| && !s.kids[c].exited
    ensures exists s': State ::
              Leads(s, s') && At(s', t, Finished(Stopped)) && At(s', u, Finished(Reported(ServingIdle)))
  {
    hide Reachable, Leads, Step, StopWindow;
    ChildIsUp(s, c);
    IsSuspended(s, t, c);
    var done: State :| Leads(s, done) && Suspended(done, t) && done.threads.Keys == s.threads.Keys + {t};
    AsksAfterwards(s, done, t, u);
  }

  lemma IsSuspended(s: State, t: ThreadId, c: ChildId)
    requires Unlocked(s) && t !in s.threads && s.rec.cmd == Some(c) && s.rec.cmdDone == Some(c)
    requires s.lastPublished == Some(c)
    requires c < |s.kids| && !s.kids[c].exited && !s.kids[c].done && c !in s.reaped
    ensures exists s': State :: Leads(s, s') && Suspended(s', t) && s'.threads.Keys == s.threads.Keys + {t}
  {
    hide Leads, Step, StopWindow, Suspended, Reaped, StoppedFrom;
    IsSignalled(s, t, c);
    var cause := ForSuspend(true);
    var s' :| Leads(s, s') && Signalling(s, s', t, cause, c);
    IsStopped(s, s', t, cause, c);
    StoppedHasNoChild(s', t, c);
    Suspends(s, StoppedFrom(s', t, cause, c), t);
  }

  lemma StoppedHasNoChild(s: State, t: ThreadId, c: ChildId)
    requires t in s.threads && c < |s.kids| && s.rec.cmd == Some(c)
    ensures var stopped := StoppedFrom(s, t, ForSuspend(true), c);
            stopped.rec.cmd == None && At(stopped, t, SuspendMark(true)) && stopped.threads.Keys == s.threads.Keys
  {
    hide StopWindow;
  }

  lemma IsSignalled(s: State, t: ThreadId, c: ChildId)
    requires Unlocked(s) && t !in s.threads && s.rec.cmd == Some(c) && s.rec.cmdDone == Some(c)
    ensures exists s': State :: Leads(s, s') && Signalling(s, s', t, ForSuspend(true), c)
  {
    hide Leads, Step, Noticed;
    SeesRunning(s, t);
    var seen := Noticed(s, t);
    NoticedOnly(s, t);
    Marks(s, seen, t, ForSuspend(true), c);
    var out := Goto(seen.(rec := StopMarked(seen.rec)), t, Signal(ForSuspend(true), c, c));
    assert Signalling(s, out, t, ForSuspend(true), c);
  }

  lemma NoticedOnly(s: State, t: ThreadId)
    ensures var seen := Noticed(s, t);
            && At(seen, t, StopBegin(ForSuspend(true))) && seen.threads.Keys == s.threads.Keys + {t}
            && seen == s.(writer := seen.writer, drained := seen.drained, pendingSince := seen.pendingSince,
                          life := seen.life, threads := seen.threads)
  {
  }
}
