/**
  The backend object: the fields that `mu` protects, and the critical sections as the source writes them.

  Performed in the order of any run of `ChildLifecycle`, by whichever threads and watchers take those steps,
  the sections leave in the fields exactly the record of the state the run ends in. So whatever is proved of
  a reachable state's record is proved of the object.
*/
module ChildBackend {
  import opened Wrappers
  import opened ChildRecord
  import opened ChildLifecycle
  import opened ChildInvariant
  import opened ChildEvents
  import opened ChildShapes
  import opened ChildTheorems

  /** What the record says to its readers whenever nobody holds `mu`, and more when nobody holds lifecycleMu. */
  ghost predicate Consistent(r: Record, s: State) {
    && (r.cmd.Some? ==>
          r.state == ChildRunning && r.cmdDone == r.cmd && r.cmd.value < |s.kids| && r.cmd.value !in s.reaped)
    && (r.cmd.Some? && s.life == None ==> r.port != 0 && s.kids[r.cmd.value].delivered == Some(r.port))
    && (r.state == ChildSuspended ==> r.cmd == None)
    && (s.life == None ==> !r.stopping)
  }

  lemma RecordConsistent(s: State)
    requires Reachable(s)
    ensures Consistent(s.rec, s)
  {
    hide Reachable, LocksOk, ChildrenOk, ThreadsOk, ClockOk, ReadersOk, TimedOk, Held, StopWindow;
    ReachableInv(s);
  }

  /** The events that are no thread's step change the record only when a watcher runs its section. */
  lemma EventRecord(s: State, a: Action, s': State)
    requires Step(s, a) == Some(s') && !a.Act?
    ensures s'.rec == if a.Reap? then Reaped(s.rec, a.child) else s.rec
  {
    hide StopWindow;
  }

  class LlamaBackend {
    var cmd: Option<ChildId>
    var port: nat
    var cmdDone: Option<ChildId>
    var stopping: bool
    var state: ChildState

    ghost function Fields(): Record
      reads this
    {
      Record(cmd, port, cmdDone, stopping, state)
    }

    constructor ()
      ensures Fields() == INITIAL_RECORD
    {
      cmd, port, cmdDone := None, 0, None;
      stopping, state := false, ChildRunning;
    }

    /** startLocked, once exec has succeeded. */
    method Publish(c: ChildId)
      modifies this
      ensures Fields() == Published(old(Fields()), c)
    {
      cmd := Some(c);
      port := 0;
      cmdDone := Some(c);
      state := ChildRunning;
    }

    /** startLocked, once the child has printed its port: written without looking at `cmd` again. */
    method StorePort(p: nat)
      modifies this
      ensures Fields() == old(Fields()).(port := p)
    {
      port := p;
    }

    /** watchChild, after Wait returned for `c`. */
    method Reap(c: ChildId) returns (intentional: bool)
      modifies this
      ensures Fields() == Reaped(old(Fields()), c)
      ensures intentional == old(stopping)
    {
      intentional := stopping;
      if cmd == Some(c) {
        cmd := None;
        port := 0;
        state := ChildFailed;
      }
    }

    /** The opening section of stopLocked: what to signal and which channel to wait on. */
    method BeginStop() returns (target: Option<ChildId>, done: Option<ChildId>)
      modifies this
      ensures Fields() == StopMarked(old(Fields()))
      ensures target == cmd && done == cmdDone
    {
      target, done := cmd, cmdDone;
      if target == None {
        return;
      }
      stopping := true;
    }

    /** The deferred closing section of stopLocked. */
    method EndStop()
      modifies this
      ensures Fields() == old(Fields()).(stopping := false)
    {
      stopping := false;
    }

    /** The last section of Stop. */
    method MarkSuspended(wasRunning: bool)
      modifies this
      ensures Fields() == if wasRunning then old(Fields()).(state := ChildSuspended) else old(Fields())
    {
      if wasRunning {
        state := ChildSuspended;
      }
    }

    /** Whichever section the step is, if it is one. */
    method Perform(s: State, a: Action, ghost s': State)
      requires Step(s, a) == Some(s') && Fields() == s.rec
      modifies this
      ensures Fields() == s'.rec
    {
      hide ThreadStep, BeginStep, ChildStep, StopWindow;
      match a {
        case Act(t, ch) =>
          StepShape(s, t, ch, s');
          Section(s.threads[t].pc);
        case Reap(c) =>
          EventRecord(s, a, s');
          var intentional := Reap(c);
        case _ =>
          EventRecord(s, a, s');
      }
    }

    /** The section a program counter stands for. */
    method Section(pc: Pc)
      modifies this
      ensures Fields() == SectionResult(old(Fields()), pc)
    {
      match pc {
        case PublishChild(_, c) => Publish(c);
        case WritePort(_, _, p) => StorePort(p);
        case StopBegin(_) =>
          var target, done := BeginStop();
        case StopEnd(_) => EndStop();
        case SuspendMark(was) => MarkSuspended(was);
        case _ =>
      }
    }
  }

  /** A fresh backend, driven through a run, ends with the run's record, and that record is consistent. */
  method Replay(s0: State, acts: seq<Action>) returns (b: LlamaBackend)
    requires Init(s0) && Run(s0, acts).Some?
    ensures fresh(b)
    ensures var s := Run(s0, acts).value; b.Fields() == s.rec && Consistent(b.Fields(), s)
    decreases |acts|
  {
    hide Step, Consistent;
    if acts == [] {
      b := new LlamaBackend();
    } else {
      var front, a := acts[..|acts| - 1], acts[|acts| - 1];
      b := Replay(s0, front);
      b.Perform(Run(s0, front).value, a, Run(s0, acts).value);
    }
    assert Reachable(Run(s0, acts).value);
    RecordConsistent(Run(s0, acts).value);
  }
}
