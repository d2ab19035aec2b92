/**
  The steps that write the record, add a child, mark it ready or record the daemon context: what the invariant
  says of the children and of the record survives each of them.
*/
module ChildWorld {
  import opened Wrappers
  import opened ChildRecord
  import opened ChildLifecycle
  import opened ChildInvariant
  import opened ChildShapes
  import opened ChildFrames
  import opened ChildSteps

  ghost predicate WorldOk(s: State) {
    ChildrenOk(s) && RecordOk(s)
  }

  /** Start records the daemon context the moment it has lifecycleMu. */
  lemma ContextSet(s: State, t: ThreadId, s': State)
    requires WorldOk(s) && Knows(s, t) && LockStep(s, t) == Some(s')
    requires s.threads[t].pc.WantLife? && s.threads[t].pc.use.LifeForStart?
    ensures WorldOk(s')
  {
  }

  lemma ChildSpawned(s: State, t: ThreadId, s': State)
    requires WorldOk(s) && Knows(s, t) && StartStep(s, t, Proceed) == Some(s') && s.threads[t].pc.Spawn?
    ensures WorldOk(s')
  {
  }

  lemma ChildPublished(s: State, t: ThreadId, ch: Choice, s': State)
    requires WorldOk(s) && Knows(s, t) && StartStep(s, t, ch) == Some(s') && s.threads[t].pc.PublishChild?
    ensures WorldOk(s')
  {
  }

  /** The port is written whether or not the child is still there. */
  lemma PortWritten(s: State, t: ThreadId, ch: Choice, s': State)
    requires WorldOk(s) && Knows(s, t) && StartStep(s, t, ch) == Some(s') && s.threads[t].pc.WritePort?
    ensures WorldOk(s')
  {
  }

  /** The health poll succeeded: startLocked stamps proof of life and returns nil. */
  lemma ChildReady(s: State, t: ThreadId, ch: Choice, s': State)
    requires WorldOk(s) && Knows(s, t) && ProbeStep(s, t, ch) == Some(s')
    requires s.threads[t].pc.ProbeStamp? && s.threads[t].pc.kind.Poll?
    ensures WorldOk(s')
  {
  }

  lemma StopMarks(s: State, t: ThreadId, ch: Choice, s': State)
    requires WorldOk(s) && Knows(s, t) && StopStep(s, t, ch) == Some(s')
    requires s.threads[t].pc.StopBegin? && s.rec.cmd.Some?
    ensures WorldOk(s')
  {
  }

  lemma StopUnmarks(s: State, t: ThreadId, ch: Choice, s': State)
    requires WorldOk(s) && Knows(s, t) && StopStep(s, t, ch) == Some(s') && s.threads[t].pc.StopEnd?
    ensures WorldOk(s')
  {
    StopEnds(s.threads[t].pc.cause);
    hide StopReturn, HistoryKnown, SeenKnown, CmdKnown, CmdReady, StaleSinceLastKill, TimedThread;
  }

  lemma Suspended(s: State, t: ThreadId, ch: Choice, s': State)
    requires WorldOk(s) && Knows(s, t) && StopStep(s, t, ch) == Some(s') && s.threads[t].pc == SuspendMark(true)
    ensures WorldOk(s')
  {
  }
}
