/**
  What one step of one thread must do for the invariant to survive it: quantifier-free facts about the thread
  that moves (`Knows` before the step, `Moved` across it) from which the invariant of everybody follows.
*/
module ChildFrames {
  import opened Wrappers
  import opened ChildRecord
  import opened ChildLifecycle
  import opened ChildInvariant
  import opened ChildShapes

  // ----- what the invariant says of one thread -----

  /** The thread's own part. */
  ghost predicate Own(s: State, t: ThreadId) {
    && t in s.threads
    && ThreadLocks(s, t, s.threads[t].pc) && PcOk(s, s.threads[t])
    && HistoryOk(s, s.threads[t]) && TimedThread(s, s.threads[t])
  }

  lemma OwnFacts(s: State, t: ThreadId)
    requires Inv(s) && t in s.threads
    ensures Own(s, t)
    ensures HasSeen(s.threads[t].pc) ==> s.threads[t].seen.Some?
    ensures s.starter == Some(t) <==> s.threads[t].op == Starting
  {
    hide ThreadLocks, PcOk, TimedThread, HasSeen;
  }

  /** The child in the record is published, not reaped, and its channels are its own and open. */
  predicate CmdKnown(s: State) {
    s.rec.cmd.Some? ==>
      && s.rec.cmd.value < |s.kids| && s.rec.cmd.value !in s.reaped && !s.kids[s.rec.cmd.value].done
      && s.rec.cmdDone == s.rec.cmd
  }

  /** The child the holder of lifecycleMu finds, outside startLocked, is one whose start returned nil. */
  predicate CmdReady(s: State, th: Thread) {
    s.rec.cmd.Some? ==>
      && s.rec.cmd.value < |s.kids| && s.kids[s.rec.cmd.value].ready
      && s.rec.port != 0 && s.kids[s.rec.cmd.value].delivered == Some(s.rec.port)
      && s.rec.cmd.value !in th.before && s.rec.cmd.value !in th.lost
  }

  /**
    A thread that has found or started a child runs after Start recorded the daemon context; and a port of
    zero means that this child is gone.
  */
  predicate SeenKnown(s: State, th: Thread) {
    th.seen.Some? ==> s.ctxSet && (s.rec.port == 0 ==> th.seen.value in s.reaped)
  }

  /** No recent proof of life, and no verdict kill under way: the last kill was long ago. */
  predicate StaleSinceLastKill(s: State) {
    && Stale(GraceCheck(s.now, s.lastAlive))
    && (|s.kills| > 0 ==> Spaced(s.kills[|s.kills| - 1], Kill(s.now, s.failedRestarts)))
  }

  predicate HistoryKnown(th: Thread) {
    && (HasSeen(th.pc) ==> th.seen.Some?)
    && (!th.pc.Finished? ==> th.attempt < EMBED_MAX_ATTEMPTS)
  }

  /** The child is neither older than the thread's call nor one it has lost. */
  predicate IsNews(th: Thread, c: ChildId) {
    c !in th.before && c !in th.lost
  }

  predicate Knows(s: State, t: ThreadId) {
    && t in s.threads
    && ThreadLocks(s, t, s.threads[t].pc) && PcOk(s, s.threads[t]) && TimedThread(s, s.threads[t])
    && HistoryKnown(s.threads[t]) && SeenKnown(s, s.threads[t]) && CmdKnown(s)
    && (s.life == Some(t) && !InStarting(s.threads[t].pc) ==> CmdReady(s, s.threads[t]))
    && (s.restart == Some(t) && !Restarting(s.threads[t].pc) && !RecentlyAlive(s) ==> StaleSinceLastKill(s))
    && (Unpublished(s.threads[t].pc).Some? ==> IsNews(s.threads[t], Unpublished(s.threads[t].pc).value))
    && (s.starter == Some(t) <==> s.threads[t].op == Starting)
    && (s.drained ==> s.writer.Some? && s.readers == {})
    && (!s.ctxSet ==> s.rec.cmd == None) && |s.kids| !in s.reaped && s.lastPublished != Some(|s.kids|)
  }

  lemma CmdIsKnown(s: State)
    requires ChildrenOk(s) && RecordOk(s)
    ensures CmdKnown(s)
  {
    hide HolderPc, InStarting, StopWindow, LastLeftInStop;
  }

  lemma CmdIsReady(s: State, t: ThreadId)
    requires RecordOk(s) && t in s.threads && HistoryOk(s, s.threads[t])
    requires s.life == Some(t) && !InStarting(s.threads[t].pc)
    ensures CmdReady(s, s.threads[t])
  {
    hide InStarting, StopMarking, StopWindow, LastLeftInStop, HasSeen;
  }

  lemma UnpublishedIsNew(s: State)
    requires LocksOk(s) && ThreadsOk(s) && Unpublished(HolderPc(s)).Some?
    ensures var c := Unpublished(HolderPc(s)).value;
            c + 1 == |s.kids| && !s.kids[c].ready && s.rec.cmd == None && c !in s.reaped
  {
    hide HistoryOk, ThreadLocks;
    assert PcOk(s, s.threads[s.life.value]);
  }

  lemma SeenIsKnown(s: State, t: ThreadId)
    requires Inv(s) && t in s.threads && HistoryOk(s, s.threads[t])
    ensures SeenKnown(s, s.threads[t])
  {
    hide LocksOk, ThreadsOk, ClockOk, ReadersOk, TimedOk, HasSeen, StopWindow, HolderPc, InStarting, Unpublished;
    var seen := s.threads[t].seen;
    if seen.Some? && seen.value !in s.reaped && Unpublished(HolderPc(s)) == seen {
      UnpublishedIsNew(s);
    }
  }

  lemma NextIsNew(s: State)
    requires ChildrenOk(s) && RecordOk(s)
    ensures (!s.ctxSet ==> s.rec.cmd == None) && |s.kids| !in s.reaped && s.lastPublished != Some(|s.kids|)
  {
    hide HolderPc, InStarting, StopWindow, LastLeftInStop;
  }

  lemma UnpublishedIsNews(s: State, th: Thread)
    requires PcOk(s, th) && HistoryOk(s, th)
    ensures Unpublished(th.pc).Some? ==> IsNews(th, Unpublished(th.pc).value)
  {
    hide HasSeen;
  }

  lemma LastKillIsOld(s: State, t: ThreadId)
    requires ClockOk(s) && t in s.threads && s.restart == Some(t) && !Restarting(s.threads[t].pc) && !RecentlyAlive(s)
    ensures StaleSinceLastKill(s)
  {
    hide Restarting;
  }

  lemma DrainedIsWriter(s: State)
    requires LocksOk(s)
    ensures s.drained ==> s.writer.Some? && s.readers == {}
  {
    hide ThreadLocks;
  }

  lemma InvParts(s: State)
    requires Inv(s)
    ensures LocksOk(s) && ChildrenOk(s) && RecordOk(s) && ThreadsOk(s) && ClockOk(s) && ReadersOk(s) && TimedOk(s)
  {
    hide LocksOk, ChildrenOk, RecordOk, ThreadsOk, ClockOk, ReadersOk, TimedOk;
  }

  lemma InvKnows(s: State, t: ThreadId)
    requires Inv(s) && t in s.threads
    ensures Knows(s, t)
  {
    hide LocksOk, ChildrenOk, RecordOk, ClockOk, ReadersOk, TimedOk, ThreadsOk, ThreadLocks, PcOk, TimedThread;
    hide HasSeen, InStarting, Restarting, CmdReady, CmdKnown, SeenKnown, RecentlyAlive, StaleSinceLastKill, IsNews;
    OwnFacts(s, t);
    CmdIsKnown(s);
    NextIsNew(s);
    SeenIsKnown(s, t);
    UnpublishedIsNews(s, s.threads[t]);
    DrainedIsWriter(s);
    if s.life == Some(t) && !InStarting(s.threads[t].pc) {
      CmdIsReady(s, t);
    }
    if s.restart == Some(t) && !Restarting(s.threads[t].pc) && !RecentlyAlive(s) {
      LastKillIsOld(s, t);
    }
  }

  // ----- what a step must do -----

  predicate SameWorld(s: State, s': State) {
    && s'.rec == s.rec && s'.ctxSet == s.ctxSet && s'.kids == s.kids
    && s'.reaped == s.reaped && s'.lastPublished == s.lastPublished
  }

  /** Only the holder of lifecycleMu, or Start as it takes it, changes the record, the children or the context. */
  predicate WorldMoves(s: State, s': State, t: ThreadId)
    requires t in s.threads
  {
    || SameWorld(s, s')
    || (s'.reaped == s.reaped && KidsMove(s, s.threads[t].pc, s')
        && if s.life == Some(t) then s'.ctxSet == s.ctxSet else s.life == None && s.starter == Some(t))
  }

  /** Every lock is as it was, or passed between "free" and "held by t". */
  predicate LocksBy(s: State, s': State, t: ThreadId) {
    && PassedBy(s.life, s'.life, t) && PassedBy(s.restart, s'.restart, t) && PassedBy(s.writer, s'.writer, t)
    && (s'.readers == s.readers || s'.readers == s.readers - {t} || s'.readers == s.readers + {t})
    && (s'.drained == s.drained || s.writer == Some(t))
    && (s'.drained ==> s'.writer.Some? && s'.readers == {})
  }

  predicate PassedBy(l: Option<ThreadId>, l': Option<ThreadId>, t: ThreadId) {
    l' == l || ((l == None || l == Some(t)) && (l' == None || l' == Some(t)))
  }

  predicate OnlyThread(s: State, s': State, t: ThreadId) {
    t in s.threads && t in s'.threads && s'.threads == s.threads[t := s'.threads[t]]
  }

  /** A reader leaves or stays; or arrives while nobody drains; or a drain begins. */
  predicate ReadersMove(s: State, s': State, t: ThreadId)
    requires t in s.threads && t in s'.threads
  {
    || ((s'.readers == s.readers || s'.readers == s.readers - {t}) && s'.threads[t].rlockAt == s.threads[t].rlockAt
        && (s'.writer.Some? && !s'.drained ==>
              s.writer == s'.writer && !s.drained && s'.pendingSince == s.pendingSince))
    || (s'.readers == s.readers + {t} && s'.threads[t].rlockAt == s.now && s'.writer == None)
    || (s'.readers == s.readers && s'.threads[t].rlockAt == s.threads[t].rlockAt && s'.pendingSince == s.now)
  }

  /** The thread's notes: kept; a child found or started; a child lost; or an attempt counted. */
  predicate HistoryMoves(s': State, reaped: set<ChildId>, th: Thread, th': Thread) {
    && th'.before == th.before && !th.pc.Finished? && (HasSeen(th'.pc) ==> th'.seen.Some?)
    && (|| (th'.attempt == th.attempt && th'.seen == th.seen && th'.lost == th.lost && OrdinaryMove(th.pc, th'.pc))
        || (th'.attempt == th.attempt && th'.seen.Some? && th'.lost == th.lost && OrdinaryMove(th.pc, th'.pc)
            && th'.seen.value < |s'.kids| && s'.kids[th'.seen.value].ready
            && th'.seen.value !in th.before && th'.seen.value !in th.lost)
        || (th'.attempt == th.attempt && th.seen.Some? && th.seen.value in reaped && th.pc == ReadPort
            && th'.lost == th.lost + [th.seen.value] && th'.seen == None && th'.pc == DropRead(EmbedNotStarted))
        || (th'.attempt == th.attempt + 1 && th'.seen == th.seen && th'.lost == th.lost
            && th.pc == DropRead(EmbedNotStarted)
            && th'.pc == (if th'.attempt < EMBED_MAX_ATTEMPTS then WantLife(LifeForEnsure)
                          else Finished(KeptSuspending))))
  }

  /** Not one of the moves that count an attempt. */
  predicate OrdinaryMove(pc: Pc, pc': Pc) {
    && pc != DropRead(EmbedNotStarted) && pc' != DropRead(EmbedNotStarted) && pc' != Finished(KeptSuspending)
  }

  /** A verdict kill stays accounted for: its restart goes on, has stamped proof of life, or has failed. */
  predicate KillKept(s: State, s': State, t: ThreadId)
    requires t in s.threads && t in s'.threads
  {
    && s'.kills == s.kills && (s'.lastAlive == s.lastAlive || s'.lastAlive == s'.now)
    && (s.restart == Some(t) && s.threads[t].killed && Restarting(s.threads[t].pc) ==>
        || (s'.restart == Some(t) && s'.threads[t].killed && Restarting(s'.threads[t].pc))
        || s'.lastAlive == s'.now
        || s.failedRestarts < s'.failedRestarts)
  }

  predicate KillMade(s: State, s': State, t: ThreadId)
    requires t in s.threads && t in s'.threads
  {
    && s.restart == Some(t) && s'.restart == Some(t) && GraceOk(s, s.threads[t]) && !s.threads[t].killed
    && s'.kills == s.kills + [Kill(s.now, s.failedRestarts)]
    && s'.lastAlive == s.lastAlive && s'.failedRestarts == s.failedRestarts
    && s'.threads[t].killed && Restarting(s'.threads[t].pc)
  }

  /** What a step of `t` must do to the locks, the readers and everybody else. */
  predicate LocksMove(s: State, t: ThreadId, s': State) {
    && OnlyThread(s, s', t) && s'.threads[t].op == s.threads[t].op && s'.starter == s.starter
    && s'.now == s.now && s.failedRestarts <= s'.failedRestarts
    && WorldMoves(s, s', t) && LocksBy(s, s', t) && ReadersMove(s, s', t)
    && ThreadLocks(s', t, s'.threads[t].pc)
  }

  /** And to what `t` itself knows, and to the history of kills. */
  predicate NotesMove(s: State, t: ThreadId, s': State)
    requires t in s.threads && t in s'.threads
  {
    && (KillKept(s, s', t) || KillMade(s, s', t))
    && HistoryMoves(s', s.reaped, s.threads[t], s'.threads[t])
    && PcOk(s', s'.threads[t]) && TimedThread(s', s'.threads[t])
  }

  /** What the record requires of the holder of lifecycleMu survives a move from `pc` to `pc'`. */
  predicate PhaseKept(s: State, pc: Pc, pc': Pc) {
    && Unpublished(pc') == Unpublished(pc) && StopMarking(pc') == StopMarking(pc)
    && (InStarting(pc) ==> InStarting(pc') || s.rec.cmd == None)
    && (StopWindowPc(pc') == StopWindowPc(pc) || s.rec.cmd.Some?)
  }

  predicate NoPhase(pc: Pc) {
    Unpublished(pc) == None && !InStarting(pc) && !StopMarking(pc) && !StopWindowPc(pc)
  }

  /** A step that leaves the record and the children alone keeps what the record says of its holder. */
  predicate PhaseMoves(s: State, t: ThreadId, s': State)
    requires t in s.threads && t in s'.threads
  {
    SameWorld(s, s')
    && if s'.life == s.life then s.life == Some(t) ==> PhaseKept(s, s.threads[t].pc, s'.threads[t].pc)
       else NoPhase(s.threads[t].pc) && NoPhase(s'.threads[t].pc)
  }

  // ----- and why that is enough -----

  lemma LocksFrame(s: State, s': State, t: ThreadId)
    requires LocksOk(s) && OnlyThread(s, s', t) && LocksBy(s, s', t)
    requires ThreadLocks(s', t, s'.threads[t].pc)
    ensures LocksOk(s')
  {
    hide Held;
    assert ThreadLocks(s, t, s.threads[t].pc);
    forall u | u in s'.threads
      ensures ThreadLocks(s', u, s'.threads[u].pc)
    {
      if u != t {
        assert ThreadLocks(s, u, s.threads[u].pc);
      }
    }
  }

  lemma PcFrame(s: State, s': State, th: Thread)
    requires PcOk(s, th) && SameWorld(s, s')
    ensures PcOk(s', th)
  {
  }

  /** Away from lifecycleMu a thread knows nothing of the children or the record. */
  lemma PcFrameUnlocked(s: State, s': State, th: Thread)
    requires PcOk(s, th) && !HoldsLife(th.pc)
    requires th.pc == WantLife(LifeForStart) ==> s'.ctxSet == s.ctxSet
    ensures PcOk(s', th)
  {
  }

  lemma StarterOnly(s: State, th: Thread)
    requires PcOk(s, th)
    ensures th.pc == WantLife(LifeForStart) ==> th.op == Starting
  {
  }

  /** Children are only added, and what is known of one stays known. */
  ghost predicate WorldGrows(s: State, s': State) {
    && s.reaped <= s'.reaped && |s.kids| <= |s'.kids|
    && forall c: ChildId :: c < |s.kids| ==> s.kids[c].ready ==> s'.kids[c].ready
  }

  lemma KidsGrow(s: State, pc: Pc, s': State)
    requires KidsMove(s, pc, s') && s'.reaped == s.reaped
    ensures WorldGrows(s, s')
  {
  }

  lemma HistoryFrame(s: State, s': State, th: Thread)
    requires HistoryOk(s, th) && WorldGrows(s, s')
    ensures HistoryOk(s', th)
  {
    hide HasSeen;
  }

  lemma HistoryGoesOn(s': State, th: Thread, th': Thread)
    requires HistoryOk(s', th) && HistoryMoves(s', s'.reaped, th, th')
    ensures HistoryOk(s', th')
  {
    hide HasSeen;
  }

  lemma ThreadsFrame(s: State, s': State, t: ThreadId)
    requires LocksOk(s) && ThreadsOk(s) && OnlyThread(s, s', t) && WorldGrows(s, s') && WorldMoves(s, s', t)
    requires s'.starter == s.starter && s'.threads[t].op == s.threads[t].op
    requires PcOk(s', s'.threads[t]) && HistoryOk(s', s'.threads[t])
    ensures ThreadsOk(s')
  {
    hide PcOk, HistoryOk, Held, WorldGrows, KidsMove;
    forall u | u in s'.threads
      ensures PcOk(s', s'.threads[u]) && HistoryOk(s', s'.threads[u])
    {
      if u != t {
        HistoryFrame(s, s', s.threads[u]);
        assert ThreadLocks(s, u, s.threads[u].pc) && ThreadLocks(s, t, s.threads[t].pc);
        if SameWorld(s, s') {
          PcFrame(s, s', s.threads[u]);
        } else {
          StarterOnly(s, s.threads[u]);
          PcFrameUnlocked(s, s', s.threads[u]);
        }
      }
    }
  }

  lemma RecordFrame(s: State, s': State, t: ThreadId)
    requires ChildrenOk(s) && RecordOk(s)
    requires OnlyThread(s, s', t) && PassedBy(s.life, s'.life, t) && s'.starter == s.starter && PhaseMoves(s, t, s')
    ensures ChildrenOk(s') && RecordOk(s')
  {
    hide InStarting, StopMarking, StopWindowPc, Unpublished;
    IdlePhase();
  }

  lemma IdlePhase()
    ensures NoPhase(Finished(Stopped))
  {
  }

  lemma ClockFrame(s: State, s': State, t: ThreadId)
    requires ClockOk(s) && OnlyThread(s, s', t) && s'.now == s.now && s.failedRestarts <= s'.failedRestarts
    requires PassedBy(s.restart, s'.restart, t) && KillKept(s, s', t)
    ensures ClockOk(s')
  {
    hide Restarting;
  }

  lemma KillFrame(s: State, s': State, t: ThreadId)
    requires ClockOk(s) && OnlyThread(s, s', t) && s'.now == s.now && KillMade(s, s', t)
    ensures ClockOk(s')
  {
    hide Restarting;
  }

  lemma JudgingUnderRestart(pc: Pc)
    ensures Judging(pc) ==> HoldsRestart(pc)
  {
  }

  lemma TimedFrame(s: State, s': State, t: ThreadId)
    requires LocksOk(s) && TimedOk(s) && OnlyThread(s, s', t)
    requires s'.now == s.now && s.failedRestarts <= s'.failedRestarts
    requires s'.kills == s.kills || s.restart == Some(t)
    requires TimedThread(s', s'.threads[t])
    ensures TimedOk(s')
  {
    hide Held, Judging, Restarting;
    forall u | u in s'.threads
      ensures TimedThread(s', s'.threads[u])
    {
      if u != t {
        assert ThreadLocks(s, u, s.threads[u].pc);
        assert TimedThread(s, s.threads[u]);
        JudgingUnderRestart(s.threads[u].pc);
      }
    }
  }

  lemma ReadersFrame(s: State, s': State, t: ThreadId)
    requires ReadersOk(s) && OnlyThread(s, s', t) && s'.now == s.now && ReadersMove(s, s', t)
    ensures ReadersOk(s')
  {
  }

  /** The invariant survives every step that does what it must. */
  lemma MovedKeeps(s: State, t: ThreadId, s': State)
    requires Inv(s) && LocksMove(s, t, s') && NotesMove(s, t, s')
    requires PhaseMoves(s, t, s') || (ChildrenOk(s') && RecordOk(s'))
    ensures Inv(s')
  {
    hide LocksOk, ChildrenOk, RecordOk, ThreadsOk, ClockOk, ReadersOk, TimedOk;
    hide ThreadLocks, PcOk, HistoryOk, TimedThread, WorldGrows, PhaseMoves, ReadersMove, HistoryMoves, KidsMove;
    hide Restarting, GraceOk;
    OwnFacts(s, t);
    KidsGrow(s, s.threads[t].pc, s');
    HistoryFrame(s, s', s.threads[t]);
    HistoryGoesOn(s', s.threads[t], s'.threads[t]);
    LocksFrame(s, s', t);
    ThreadsFrame(s, s', t);
    TimedFrame(s, s', t);
    if KillKept(s, s', t) { ClockFrame(s, s', t); } else { KillFrame(s, s', t); }
    ReadersFrame(s, s', t);
    if PhaseMoves(s, t, s') {
      RecordFrame(s, s', t);
    }
  }
}
