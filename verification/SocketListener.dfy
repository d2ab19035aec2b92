/**
  The socket file and the listeners as the source writes them: objects that bind, compare and unlink.

  Driven through any run of `SocketOwnership`, they leave at the path exactly the file of the state the run
  ends in, and the answers of StillOwned are what decides each watchdog. So what is proved of runs is proved
  of these objects.
*/
module SocketListener {
  import opened Wrappers
  import opened SocketOwnership

  class SocketFile {
    var node: Option<Node>

    constructor (node: Option<Node>)
      ensures this.node == node
    {
      this.node := node;
    }

    method Unlink()
      modifies this
      ensures node == None
    {
      node := None;
    }
  }

  class OwnedListener {
    const file: SocketFile
    const ino: Inode
    var listening: bool
    var closed: bool

    /** bind and the reading of the inode; the path must be free. */
    constructor (file: SocketFile, node: Node)
      requires file.node == None
      modifies file
      ensures this.file == file && ino == node.ino && listening && !closed && file.node == Some(node)
    {
      this.file, ino, listening, closed := file, node.ino, true, false;
      new;
      file.node := Some(node);
    }

    method StillOwned() returns (owned: bool)
      ensures owned <==> SameSocket(file.node, ino)
    {
      return file.node.Some? && file.node.value.ino == ino;
    }

    /** The first half of Close: the inode is no longer pinned. */
    method StopListening()
      modifies this`listening
      ensures !listening
    {
      listening := false;
    }

    /** The second half, once: the file is removed if it still has the inode that was bound. */
    method RemoveOwn()
      modifies this`closed, file
      ensures closed && file.node == if old(closed) then old(file.node) else AfterClose(old(file.node), ino)
    {
      if !closed {
        closed := true;
        var same := StillOwned();
        if same {
          file.Unlink();
        }
      }
    }
  }

  /** The listener of a daemon that has bound one. */
  predicate Bound(pc: Pc) {
    pc == Serving || pc == CloseListener || pc == CheckPath
  }

  /** Every daemon that has bound has an open listener of its own, on its inode. */
  ghost predicate Matches(s: State, file: SocketFile, listeners: map<DaemonId, OwnedListener>)
    reads listeners.Values
  {
    && (forall d :: d in s.daemons && Bound(s.daemons[d].pc) ==>
          d in listeners && listeners[d].file == file && listeners[d].ino == s.daemons[d].ino && !listeners[d].closed
          && (listeners[d].listening <==> Live(s.daemons[d])))
    && (forall d, e :: d in listeners && e in listeners && listeners[d] == listeners[e] ==> d == e)
  }

  /** A daemon with no listener moves on, or one that has a listener gives it up: the others are as they were. */
  lemma MovesOn(s: State, d: DaemonId, pc: Pc, file: SocketFile, listeners: map<DaemonId, OwnedListener>)
    requires d in s.daemons && Matches(s, file, listeners) && !Bound(pc)
    ensures Matches(Goto(s, d, pc), file, listeners)
  {
  }

  method FirstHalfOfClose(s: State, d: DaemonId, file: SocketFile, listeners: map<DaemonId, OwnedListener>)
    requires d in s.daemons && s.daemons[d].pc == CloseListener && Matches(s, file, listeners)
    modifies listeners.Values
    ensures Matches(Goto(s, d, CheckPath), file, listeners)
  {
    listeners[d].StopListening();
  }

  method SecondHalfOfClose(s: State, d: DaemonId, file: SocketFile, listeners: map<DaemonId, OwnedListener>)
    requires d in s.daemons && s.daemons[d].pc == CheckPath && Matches(s, file, listeners)
    modifies file, listeners.Values
    ensures file.node == AfterClose(old(file.node), s.daemons[d].ino) && Matches(Goto(s, d, Gone), file, listeners)
  {
    listeners[d].RemoveOwn();
  }

  predicate WaysUp(pc: Pc) {
    !Bound(pc) && pc != Gone && pc != BindPath
  }

  /** On the way up a daemon stays without a listener. */
  lemma StaysUnbound(s: State, d: DaemonId, answered: bool, s': State)
    requires d in s.daemons && WaysUp(s.daemons[d].pc) && DaemonStep(s, d, answered) == Some(s')
    ensures d in s'.daemons && !Bound(s'.daemons[d].pc) && s' == Goto(s, d, s'.daemons[d].pc).(path := s'.path)
    ensures s'.path == if s.daemons[d].pc == RemoveStale || s.daemons[d].pc == RemoveOther
              || s.daemons[d].pc == RemoveDead then None else s.path
  {
    hide Accepting;
  }

  /** What a daemon does to the file on its way up and on its way down. */
  method AdvanceDaemon(s: State, d: DaemonId, answered: bool, file: SocketFile, listeners: map<DaemonId, OwnedListener>)
    requires d in s.daemons && DaemonStep(s, d, answered).Some? && file.node == s.path && Matches(s, file, listeners)
    modifies file, listeners.Values
    ensures var s' := DaemonStep(s, d, answered).value; file.node == s'.path && Matches(s', file, listeners)
  {
    hide Accepting, LiveAt;
    var pc := s.daemons[d].pc;
    if pc == CloseListener {
      FirstHalfOfClose(s, d, file, listeners);
    } else if pc == CheckPath {
      SecondHalfOfClose(s, d, file, listeners);
      hide Matches;
      PathAside(Goto(s, d, Gone), file.node, file, listeners);
    } else {
      ghost var s' := DaemonStep(s, d, answered).value;
      hide DaemonStep, Matches;
      Unbound(s, d, answered, s');
      StaysUnbound(s, d, answered, s');
      MovesOn(s, d, s'.daemons[d].pc, file, listeners);
      if pc == RemoveStale || pc == RemoveOther || pc == RemoveDead {
        file.Unlink();
      }
      PathAside(Goto(s, d, s'.daemons[d].pc), s'.path, file, listeners);
    }
  }

  lemma Unbound(s: State, d: DaemonId, answered: bool, s': State)
    requires d in s.daemons && DaemonStep(s, d, answered) == Some(s')
    ensures s.daemons[d].pc == CloseListener || s.daemons[d].pc == CheckPath || WaysUp(s.daemons[d].pc)
  {
    hide Accepting;
  }

  lemma PathAside(s: State, path: Option<Node>, file: SocketFile, listeners: map<DaemonId, OwnedListener>)
    requires Matches(s, file, listeners)
    ensures Matches(s.(path := path), file, listeners)
  {
  }

  method BindSocket(s: State, d: DaemonId, ino: Inode, ok: bool, file: SocketFile, listeners: map<DaemonId,
      OwnedListener>)
      returns (next: map<DaemonId, OwnedListener>)
    requires d in s.daemons && BindStep(s, d, ino, ok).Some? && file.node == s.path && Matches(s, file, listeners)
    modifies file
    ensures var s' := BindStep(s, d, ino, ok).value; file.node == s'.path && Matches(s', file, next)
    ensures forall e :: e in next ==> (e in listeners && next[e] == listeners[e]) || fresh(next[e])
  {
    hide Accepting, LiveAt, Pending;
    next := listeners;
    if file.node == None && ok {
      var l := new OwnedListener(file, Node(ino, true, Some(d), Pending(s, ino)));
      next := listeners[d := l];
    }
  }

  /** The file operation of a step, if it has one. `owned` is StillOwned's answer, which decides the watchdog. */
  method Perform(s: State, a: Action, file: SocketFile, listeners: map<DaemonId, OwnedListener>)
      returns (owned: bool, next: map<DaemonId, OwnedListener>)
    requires Step(s, a).Some? && file.node == s.path && Matches(s, file, listeners)
    modifies file, listeners.Values
    ensures var s' := Step(s, a).value; file.node == s'.path && Matches(s', file, next)
    ensures a.Watch? ==> (owned <==> Step(s, a).value.daemons[a.d].pc == Serving)
    ensures forall d :: d in next ==> (d in listeners && next[d] == listeners[d]) || fresh(next[d])
  {
    hide DaemonStep, BindStep;
    owned, next := false, listeners;
    match a {
      case Advance(d, answered) => AdvanceDaemon(s, d, answered, file, listeners);
      case Bind(d, ino, ok) => next := BindSocket(s, d, ino, ok, file, listeners);
      case Watch(d) => owned := listeners[d].StillOwned();
      case Wipe => file.Unlink();
      case _ =>
    }
  }

  /** Any run of any number of daemons, acted out on one file. */
  method Replay(s0: State, acts: seq<Action>) returns (file: SocketFile, listeners: map<DaemonId, OwnedListener>)
    requires Init(s0) && Run(s0, acts).Some?
    ensures fresh(file) && forall d :: d in listeners ==> fresh(listeners[d])
    ensures var s := Run(s0, acts).value; file.node == s.path && Matches(s, file, listeners)
    decreases |acts|
  {
    hide Step, Matches;
    if acts == [] {
      file := new SocketFile(s0.path);
      listeners := map[];
      NobodyYet(s0, file);
    } else {
      var front, a := acts[..|acts| - 1], acts[|acts| - 1];
      file, listeners := Replay(s0, front);
      var owned;
      owned, listeners := Perform(Run(s0, front).value, a, file, listeners);
    }
  }

  lemma NobodyYet(s: State, file: SocketFile)
    requires Init(s)
    ensures Matches(s, file, map[])
  {
  }
}
