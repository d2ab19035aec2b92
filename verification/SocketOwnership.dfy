/**
  Any number of daemons and one socket path, as a transition system.

  A daemon that starts looks for another one, removes a stale file, and binds; once serving it checks
  every few seconds that the path still leads to its own socket, and evicts itself if not. The checks and
  the removals are separate steps, so two daemons that start together can displace each other.

  One step is one dial, stat, unlink or bind. Three pairs are taken as one step: bind and the reading of
  the inode it created; the inode comparison and the unlink inside Close; and the watchdog's comparison
  with the start of the shutdown. A dial can fail for no reason, and somebody else may delete the file at
  any time (`Wipe`). A live listener pins its inode.
*/
module SocketOwnership {
  import opened Wrappers

  type DaemonId = nat
  type Inode = nat

  /**
    The file at the path. `owner` is the daemon that bound it (None: it was there in the beginning) and
    `tookFrom` the daemons that had closed their listener but not yet compared inodes when this file was
    given the inode they had; both are history.
  */
  datatype Node = Node(ino: Inode, isSocket: bool, owner: Option<DaemonId>, tookFrom: set<DaemonId>)

  datatype Pc =
    | EarlyProbe | StatStale | RemoveStale
    | ListenStat | RemoveOther | ListenDial | RemoveDead | BindPath
    | Serving | CloseListener | CheckPath
    | Gone

  /** `ino` is the inode it bound, once it has. */
  datatype Daemon = Daemon(pc: Pc, ino: Inode)

  /** `binder` is the last daemon to bind: history. */
  datatype State = State(path: Option<Node>, daemons: map<DaemonId, Daemon>, binder: Option<DaemonId>)

  datatype Action =
    | Launch(d: DaemonId)
    | Advance(d: DaemonId, answered: bool)
    | Bind(d: DaemonId, ino: Inode, ok: bool)
    | Watch(d: DaemonId)
    | Shutdown(d: DaemonId)
    | Kill(d: DaemonId)
    | Wipe

  predicate Init(s: State) {
    s.daemons == map[] && s.binder == None
        && (s.path.Some? ==> s.path.value.owner == None && s.path.value.tookFrom == {})
  }

  predicate Live(d: Daemon) {
    d.pc == Serving || d.pc == CloseListener
  }

  predicate LiveAt(s: State, ino: Inode) {
    exists d :: d in s.daemons && Live(s.daemons[d]) && s.daemons[d].ino == ino
  }

  /** A dial of the path can succeed. */
  predicate Accepting(s: State) {
    s.path.Some? && s.path.value.isSocket && LiveAt(s, s.path.value.ino)
  }

  predicate SameSocket(path: Option<Node>, ino: Inode) {
    path.Some? && path.value.ino == ino
  }

  function Goto(s: State, d: DaemonId, pc: Pc): State
    requires d in s.daemons
  {
    s.(daemons := s.daemons[d := s.daemons[d].(pc := pc)])
  }

  function AfterClose(path: Option<Node>, ino: Inode): Option<Node> {
    if SameSocket(path, ino) then None else path
  }

  /** Closers that have let go of `ino` and are about to compare. */
  function Pending(s: State, ino: Inode): set<DaemonId> {
    set d | d in s.daemons && s.daemons[d].pc == CheckPath && s.daemons[d].ino == ino
  }

  /** The steps of one daemon that need no choice but the outcome of a dial. */
  function DaemonStep(s: State, d: DaemonId, answered: bool): Option<State>
    requires d in s.daemons
  {
    match s.daemons[d].pc
    case EarlyProbe =>
      if !answered then Some(Goto(s, d, StatStale))
      else if Accepting(s) then Some(Goto(s, d, Gone)) else None
    case StatStale => Some(Goto(s, d, if s.path.Some? then RemoveStale else ListenStat))
    case RemoveStale => Some(Goto(s.(path := None), d, if s.path.Some? then ListenStat else Gone))
    case ListenStat =>
      Some(Goto(s, d, if s.path == None then BindPath else if s.path.value.isSocket then ListenDial else RemoveOther))
    case RemoveOther => Some(Goto(s.(path := None), d, if s.path.Some? then BindPath else Gone))
    case ListenDial =>
      if !answered then Some(Goto(s, d, RemoveDead))
      else if Accepting(s) then Some(Goto(s, d, Gone)) else None
    case RemoveDead => Some(Goto(s.(path := None), d, BindPath))
    case CloseListener => Some(Goto(s, d, CheckPath))
    case CheckPath => Some(Goto(s.(path := AfterClose(s.path, s.daemons[d].ino)), d, Gone))
    case _ => None
  }

  /** bind fails if a file is there; a failing chmod or stat takes the new file away again. */
  function BindStep(s: State, d: DaemonId, ino: Inode, ok: bool): Option<State>
    requires d in s.daemons
  {
    if s.daemons[d].pc != BindPath then None
    else if s.path.Some? || !ok then Some(Goto(s, d, Gone))
    else if LiveAt(s, ino) then None
    else
      Some(s.(path := Some(Node(ino, true, Some(d), Pending(s, ino))),
              daemons := s.daemons[d := Daemon(Serving, ino)],
              binder := Some(d)))
  }

  function Step(s: State, a: Action): Option<State> {
    if a == Wipe then Some(s.(path := None))
    else if a.Launch? then
      if a.d in s.daemons then None else Some(s.(daemons := s.daemons[a.d := Daemon(EarlyProbe, 0)]))
    else if a.d !in s.daemons then None
    else
      match a
      case Advance(d, answered) => DaemonStep(s, d, answered)
      case Bind(d, ino, ok) => BindStep(s, d, ino, ok)
      case Watch(d) =>
        if s.daemons[d].pc != Serving then None
        else Some(if SameSocket(s.path, s.daemons[d].ino) then s else Goto(s, d, CloseListener))
      case Shutdown(d) => if s.daemons[d].pc != Serving then None else Some(Goto(s, d, CloseListener))
      case Kill(d) => Some(Goto(s, d, Gone))
  }

  function Run(s: State, acts: seq<Action>): Option<State> {
    if acts == [] then Some(s)
    else
      var r := Run(s, acts[..|acts| - 1]);
      if r == None then None else Step(r.value, acts[|acts| - 1])
  }

  ghost predicate Reachable(s: State) {
    exists s0: State, acts: seq<Action> :: Init(s0) && Run(s0, acts) == Some(s)
  }

  // ----- rules a run may keep -----

  /**
    TrueDials: a dial succeeds whenever it can. NoWipes: nobody else deletes the file. OneStarter: a daemon
    is launched only while no other is on its way to its bind. UnsharedInodes: no bind is given an inode that
    a closer has let go of and is about to compare.
  */
  datatype Rule = TrueDials | NoWipes | OneStarter | UnsharedInodes

  /** The daemon has not bound yet. */
  predicate Starting(pc: Pc) {
    pc != Serving && pc != CloseListener && pc != CheckPath && pc != Gone
  }

  predicate NobodyStarting(s: State) {
    forall d :: d in s.daemons ==> !Starting(s.daemons[d].pc)
  }

  predicate Keeps(s: State, a: Action, rule: Rule) {
    match rule
    case TrueDials =>
      a.Advance? && a.d in s.daemons && (s.daemons[a.d].pc == EarlyProbe || s.daemons[a.d].pc == ListenDial) ==>
        (a.answered <==> Accepting(s))
    case NoWipes => a != Wipe
    case OneStarter => a.Launch? ==> NobodyStarting(s)
    case UnsharedInodes => a.Bind? ==> Pending(s, a.ino) == {}
  }

  predicate RunKeeping(rules: set<Rule>, s: State, acts: seq<Action>) {
    acts == []
    || (RunKeeping(rules, s, acts[..|acts| - 1])
        && var r := Run(s, acts[..|acts| - 1]);
        r.Some? && forall rule :: rule in rules ==> Keeps(r.value, acts[|acts| - 1], rule))
  }

  /** A run that keeps these rules ends in the state. */
  ghost predicate ReachableKeeping(rules: set<Rule>, s: State) {
    exists s0: State, acts: seq<Action> :: Init(s0) && RunKeeping(rules, s0, acts) && Run(s0, acts) == Some(s)
  }

  // ----- the inductive invariant -----

  /** The path is empty or holds what the last binder put there. */
  predicate PathOk(s: State) {
    && (s.binder.Some? ==> s.binder.value in s.daemons)
    && (s.path.Some? ==>
          && s.path.value.owner == s.binder
          && (s.binder.Some? ==> s.path.value.ino == s.daemons[s.binder.value].ino && s.path.value.isSocket)
          && (s.binder.Some? ==> s.binder.value !in s.path.value.tookFrom)
          && forall d :: d in s.path.value.tookFrom ==>
              d in s.daemons && (s.daemons[d].pc == CheckPath || s.daemons[d].pc == Gone))
  }

  /** Live listeners have inodes of their own, which the last binder's inode is none of. */
  predicate InodesOk(s: State) {
    && (forall d :: d in s.daemons && (Live(s.daemons[d]) || s.daemons[d].pc == CheckPath) ==> s.binder.Some?)
    && (forall d ::
          d in s.daemons && Live(s.daemons[d]) && s.binder.Some? && s.binder.value in s.daemons && s.binder != Some(d)
          ==> s.daemons[d].ino != s.daemons[s.binder.value].ino)
  }

  /** A closer finds its own inode at the path exactly if the file is its own or took the inode from it. */
  predicate ClosersOk(s: State) {
    forall d :: d in s.daemons && s.daemons[d].pc == CheckPath && s.path.Some? ==>
      (s.path.value.ino == s.daemons[d].ino <==> s.path.value.owner == Some(d) || d in s.path.value.tookFrom)
  }

  predicate Inv(s: State) {
    PathOk(s) && InodesOk(s) && ClosersOk(s)
  }

  lemma LeavingKeepsInv(s: State, d: DaemonId, s': State)
    requires Inv(s) && d in s.daemons && Live(s.daemons[d]) && s' == Goto(s, d, CheckPath)
    ensures Inv(s')
  {
  }

  lemma DaemonKeepsInv(s: State, d: DaemonId, answered: bool, s': State)
    requires Inv(s) && d in s.daemons && DaemonStep(s, d, answered) == Some(s')
    ensures Inv(s')
  {
    hide Accepting;
    if s.daemons[d].pc == CloseListener {
      LeavingKeepsInv(s, d, s');
    }
  }

  lemma BindKeepsInv(s: State, d: DaemonId, ino: Inode, ok: bool, s': State)
    requires Inv(s) && d in s.daemons && BindStep(s, d, ino, ok) == Some(s')
    ensures Inv(s')
  {
  }

  lemma StepKeepsInv(s: State, a: Action, s': State)
    requires Inv(s) && Step(s, a) == Some(s')
    ensures Inv(s')
  {
    hide DaemonStep, BindStep;
    match a
    case Advance(d, answered) => DaemonKeepsInv(s, d, answered, s');
    case Bind(d, ino, ok) => BindKeepsInv(s, d, ino, ok, s');
    case _ =>
  }

  lemma {:induction false} RunKeepsInv(s0: State, acts: seq<Action>, s: State)
    requires Inv(s0) && Run(s0, acts) == Some(s)
    ensures Inv(s)
  {
    hide Step, Inv;
    if acts != [] {
      var front := acts[..|acts| - 1];
      RunKeepsInv(s0, front, Run(s0, front).value);
      StepKeepsInv(Run(s0, front).value, acts[|acts| - 1], s);
    }
  }

  lemma ReachableInv(s: State)
    requires Reachable(s)
    ensures Inv(s)
  {
    hide Run;
    var s0: State, acts: seq<Action> :| Init(s0) && Run(s0, acts) == Some(s);
    RunKeepsInv(s0, acts, s);
  }

  // ----- the theorems -----

  /** The daemon can accept clients: its listener is live and the path leads to it. */
  predicate Owns(s: State, d: DaemonId) {
    d in s.daemons && Live(s.daemons[d]) && SameSocket(s.path, s.daemons[d].ino)
  }

  /** Only the last daemon that bound can own the path, so at most one daemon does. */
  lemma OwnerIsLastBinder(s: State, d: DaemonId)
    requires Reachable(s) && Owns(s, d)
    ensures s.binder == Some(d) && s.path.value.owner == Some(d)
    ensures forall e :: Owns(s, e) ==> e == d
  {
    hide Reachable;
    ReachableInv(s);
  }

  /**
    Close takes away a file bound by another daemon exactly if that file was bound with the closer's own
    inode number between the closing of its listener, which unpins the inode, and its comparison.
  */
  lemma CloseRemovesForeignFileIff(s: State, d: DaemonId, s': State)
    requires Reachable(s) && d in s.daemons && s.daemons[d].pc == CheckPath && Step(s, Advance(d, false)) == Some(s')
    ensures s.path.Some? && s.path.value.owner != Some(d) && s'.path == None <==>
              s.path.Some? && d in s.path.value.tookFrom
    ensures s.path.Some? && s.path.value.owner == Some(d) ==> s'.path == None
  {
    hide Reachable;
    ReachableInv(s);
  }

  /** The file at the path was given no closer's inode. */
  predicate NothingTaken(s: State) {
    s.path.Some? ==> s.path.value.tookFrom == {}
  }

  lemma {:induction false} RunTakesNothing(rules: set<Rule>, s0: State, acts: seq<Action>, s: State)
    requires UnsharedInodes in rules && Init(s0) && RunKeeping(rules, s0, acts) && Run(s0, acts) == Some(s)
    ensures NothingTaken(s)
  {
    hide DaemonStep, Accepting, LiveAt, NobodyStarting;
    if acts != [] {
      var front, a := acts[..|acts| - 1], acts[|acts| - 1];
      var before := Run(s0, front).value;
      RunTakesNothing(rules, s0, front, before);
      assert Keeps(before, a, UnsharedInodes);
      StepTakesNothing(before, a, s);
    }
  }

  lemma StepTakesNothing(s: State, a: Action, s': State)
    requires Step(s, a) == Some(s') && (a.Bind? ==> Pending(s, a.ino) == {})
    requires NothingTaken(s)
    ensures NothingTaken(s')
  {
    hide Accepting, LiveAt, Pending;
  }

  /** If no inode is shared so, the Close of an evicted daemon leaves the owner its file. */
  lemma CloseLeavesTheOwner(s: State, d: DaemonId, e: DaemonId, s': State)
    requires ReachableKeeping({UnsharedInodes}, s)
    requires d in s.daemons && s.daemons[d].pc == CheckPath && Step(s, Advance(d, false)) == Some(s')
    requires Owns(s, e)
    ensures Owns(s', e) && s'.path == s.path
  {
    hide Run, RunKeeping;
    var s0: State, acts: seq<Action> :| Init(s0) && RunKeeping({UnsharedInodes}, s0, acts) && Run(s0, acts) == Some(s);
    RunTakesNothing({UnsharedInodes}, s0, acts, s);
    assert Inv(s) by { RunKeepsInv(s0, acts, s); }
  }

  // ----- convergence -----

  predicate NoLaunch(acts: seq<Action>) {
    forall i :: 0 <= i < |acts| ==> !acts[i].Launch?
  }

  lemma QuietStep(s: State, a: Action, s': State)
    requires Inv(s) && NobodyStarting(s) && !a.Launch? && Step(s, a) == Some(s')
    ensures NobodyStarting(s') && s'.binder == s.binder
    ensures forall d :: d in s'.daemons && s'.daemons[d].pc == Serving ==> d in s.daemons && s.daemons[d].pc == Serving
    ensures a.Watch? && s'.daemons[a.d].pc == Serving ==> s.binder == Some(a.d)
  {
    hide Accepting, LiveAt, Pending;
  }

  lemma {:induction false} WatchedIsBinder(s: State, acts: seq<Action>, s': State, d: DaemonId)
    requires Inv(s) && NobodyStarting(s) && NoLaunch(acts) && Run(s, acts) == Some(s')
    requires d in s'.daemons && s'.daemons[d].pc == Serving && Watch(d) in acts
    ensures s'.binder == Some(d)
  {
    hide Step, Inv, NobodyStarting;
    var front, a := acts[..|acts| - 1], acts[|acts| - 1];
    var before := Run(s, front).value;
    assert Inv(before) by { RunKeepsInv(s, front, before); }
    QuietRun(s, front, before);
    QuietStep(before, a, s');
    if a != Watch(d) {
      assert acts == front + [a];
      WatchedIsBinder(s, front, before, d);
    }
  }

  /**
    Once nobody is starting any more, every daemon that is still serving after its watchdog has looked
    once is the last binder; so when every watchdog has looked, at most one daemon is left.
  */
  lemma WatchdogsLeaveTheLastBinder(s: State, acts: seq<Action>, s': State)
    requires Reachable(s) && NobodyStarting(s) && NoLaunch(acts) && Run(s, acts) == Some(s')
    ensures forall d :: d in s'.daemons && s'.daemons[d].pc == Serving && Watch(d) in acts ==> s'.binder == Some(d)
  {
    hide Reachable, Run, Inv, NobodyStarting, NoLaunch;
    ReachableInv(s);
    forall d | d in s'.daemons && s'.daemons[d].pc == Serving && Watch(d) in acts
      ensures s'.binder == Some(d)
    {
      WatchedIsBinder(s, acts, s', d);
    }
  }

  lemma {:induction false} QuietRun(s: State, acts: seq<Action>, s': State)
    requires Inv(s) && NobodyStarting(s) && NoLaunch(acts) && Run(s, acts) == Some(s')
    ensures NobodyStarting(s')
  {
    hide Step, Inv, NobodyStarting;
    if acts != [] {
      var front := acts[..|acts| - 1];
      var before := Run(s, front).value;
      QuietRun(s, front, before);
      assert Inv(before) by { RunKeepsInv(s, front, before); }
      QuietStep(before, acts[|acts| - 1], s');
    }
  }

  /** And nothing takes the path from the last binder then, unless the file is deleted or an inode is shared. */
  lemma QuietStepKeepsOwner(s: State, a: Action, s': State, d: DaemonId)
    requires Inv(s) && NobodyStarting(s) && NothingTaken(s) && a != Wipe && !a.Launch? && Step(s, a) == Some(s')
    requires Owns(s, d) && d in s'.daemons && s'.daemons[d].pc == Serving
    ensures Owns(s', d)
  {
    hide Accepting, LiveAt, Pending;
  }

  // ----- when only one daemon serves -----

  const EVERY_RULE := {TrueDials, NoWipes, OneStarter, UnsharedInodes}

  /** No two daemons have a live listener. */
  predicate OneServes(s: State) {
    forall d, e :: d in s.daemons && e in s.daemons && Live(s.daemons[d]) && Live(s.daemons[e]) ==> d == e
  }

  predicate StartersApart(s: State) {
    forall d, e :: d in s.daemons && e in s.daemons && Starting(s.daemons[d].pc) && Starting(s.daemons[e].pc) ==> d == e
  }

  /** A live daemon owns the path, and nobody starting has got past its first dial. */
  predicate LiveOwns(s: State) {
    forall d :: d in s.daemons && Live(s.daemons[d]) ==>
      && s.path.Some? && s.path.value.isSocket && s.path.value.ino == s.daemons[d].ino && s.path.value.owner == Some(d)
      && forall e :: e in s.daemons && Starting(s.daemons[e].pc) ==> s.daemons[e].pc == EarlyProbe
  }

  predicate Orderly(s: State) {
    StartersApart(s) && LiveOwns(s) && NothingTaken(s)
  }

  lemma OrderlyDaemonStep(s: State, d: DaemonId, answered: bool, s': State)
    requires Inv(s) && Orderly(s) && d in s.daemons && DaemonStep(s, d, answered) == Some(s')
    requires Keeps(s, Advance(d, answered), TrueDials)
    ensures Orderly(s')
  {
  }

  lemma OrderlyBind(s: State, d: DaemonId, ino: Inode, ok: bool, s': State)
    requires Inv(s) && Orderly(s) && d in s.daemons && BindStep(s, d, ino, ok) == Some(s')
    requires Keeps(s, Bind(d, ino, ok), UnsharedInodes)
    ensures Orderly(s')
  {
  }

  lemma OrderlyStep(s: State, a: Action, s': State)
    requires Inv(s) && Orderly(s) && Step(s, a) == Some(s')
    requires forall rule :: rule in EVERY_RULE ==> Keeps(s, a, rule)
    ensures Orderly(s')
  {
    hide DaemonStep, BindStep, Inv;
    assert Keeps(s, a, TrueDials) && Keeps(s, a, NoWipes) && Keeps(s, a, OneStarter) && Keeps(s, a, UnsharedInodes);
    match a
    case Advance(d, answered) => OrderlyDaemonStep(s, d, answered, s');
    case Bind(d, ino, ok) => OrderlyBind(s, d, ino, ok, s');
    case _ =>
  }

  lemma {:induction false} OrderlyRun(s0: State, acts: seq<Action>, s: State)
    requires Init(s0) && RunKeeping(EVERY_RULE, s0, acts) && Run(s0, acts) == Some(s)
    ensures Orderly(s)
  {
    hide Step, Inv, Keeps;
    if acts == [] {
      hide Run, RunKeeping;
      assert s0.daemons == map[];
      assert s == s0 by { RunOfNothing(s0); }
    } else {
      var front := acts[..|acts| - 1];
      var before := Run(s0, front).value;
      OrderlyRun(s0, front, before);
      InitInv(s0);
      assert Inv(before) by { RunKeepsInv(s0, front, before); }
      OrderlyStep(before, acts[|acts| - 1], s);
    }
  }

  lemma InitInv(s: State)
    requires Init(s)
    ensures Inv(s)
  {
  }

  lemma RunOfNothing(s: State)
    ensures Run(s, []) == Some(s)
  {
  }

  /**
    In every run that keeps the four rules, at most one daemon serves at any time, and it owns the path. Each
    rule is needed: for each there is a run that keeps the other three and ends with two daemons serving.
  */
  lemma AtMostOneServes(s: State)
    requires ReachableKeeping(EVERY_RULE, s)
    ensures OneServes(s) && forall d :: d in s.daemons && Live(s.daemons[d]) ==> Owns(s, d)
  {
    hide Run, RunKeeping, Init;
    var s0: State, acts: seq<Action> :| Init(s0) && RunKeeping(EVERY_RULE, s0, acts) && Run(s0, acts) == Some(s);
    OrderlyRun(s0, acts, s);
  }

  // ----- what a starting daemon does -----

  /** A dial that tells the truth decides: the daemon gives up exactly if somebody accepts at the path. */
  lemma YieldsIff(s: State, d: DaemonId, answered: bool, s': State)
    requires d in s.daemons && (s.daemons[d].pc == EarlyProbe || s.daemons[d].pc == ListenDial)
    requires Keeps(s, Advance(d, answered), TrueDials) && Step(s, Advance(d, answered)) == Some(s')
    ensures d in s'.daemons && s'.path == s.path
    ensures s'.daemons[d].pc == Gone <==>
              s.path.Some? && s.path.value.isSocket
              && exists e :: e in s.daemons && Live(s.daemons[e]) && s.daemons[e].ino == s.path.value.ino
  {
  }

  /** A bind succeeds exactly on a free path with nothing going wrong; otherwise the daemon ends and leaves the path. */
  lemma BindsIff(s: State, d: DaemonId, ino: Inode, ok: bool, s': State)
    requires d in s.daemons && Step(s, Bind(d, ino, ok)) == Some(s')
    ensures d in s'.daemons
    ensures s'.daemons[d] == Daemon(Serving, ino) && s'.binder == Some(d) <==> s.path == None && ok
    ensures s.path.Some? || !ok ==> s'.daemons[d].pc == Gone && s'.path == s.path
  {
    hide LiveAt, Pending;
  }

  /** What an earlier step of the daemon has found: the outcome of its dials, and the file it looked at. */
  datatype Finding = NoAnswer(at: Pc) | SawFile | SawSocket | SawOther | SawNothing | MadeFree

  predicate Finds(s: State, a: Action, d: DaemonId, f: Finding) {
    a.Advance? && a.d == d && d in s.daemons
    && match f
       case NoAnswer(at) => s.daemons[d].pc == at && !a.answered
       case SawFile => s.daemons[d].pc == StatStale && s.path.Some?
       case SawSocket => s.daemons[d].pc == ListenStat && s.path.Some? && s.path.value.isSocket
       case SawOther => s.daemons[d].pc == ListenStat && s.path.Some? && !s.path.value.isSocket
       case SawNothing => s.daemons[d].pc == ListenStat && s.path == None
       case MadeFree => (s.daemons[d].pc == RemoveOther && s.path.Some?) || s.daemons[d].pc == RemoveDead
  }

  predicate Found(s0: State, acts: seq<Action>, d: DaemonId, f: Finding) {
    if acts == [] then false
    else
      var front, a := acts[..|acts| - 1], acts[|acts| - 1];
      var r := Run(s0, front);
      r.Some? && (Finds(r.value, a, d, f) || Found(s0, front, d, f))
  }

  /** What must have been found before the daemon is where it is. */
  predicate Warranted(s0: State, acts: seq<Action>, d: DaemonId, pc: Pc) {
    match pc
    case StatStale => Found(s0, acts, d, NoAnswer(EarlyProbe))
    case RemoveStale => Found(s0, acts, d, SawFile)
    case ListenStat => Found(s0, acts, d, NoAnswer(EarlyProbe))
    case RemoveOther => Found(s0, acts, d, SawOther)
    case ListenDial => Found(s0, acts, d, SawSocket)
    case RemoveDead => Found(s0, acts, d, SawSocket) && Found(s0, acts, d, NoAnswer(ListenDial))
    case BindPath => Found(s0, acts, d, SawNothing) || Found(s0, acts, d, MadeFree)
    case _ => true
  }

  predicate WarrantedEarly(s0: State, acts: seq<Action>, d: DaemonId, pc: Pc) {
    (Starting(pc) && pc != EarlyProbe ==> Found(s0, acts, d, NoAnswer(EarlyProbe))) && Warranted(s0, acts, d, pc)
  }

  lemma FoundStays(s0: State, acts: seq<Action>, s: State, a: Action, d: DaemonId)
    requires Run(s0, acts) == Some(s)
    ensures forall f :: Found(s0, acts, d, f) || Finds(s, a, d, f) ==> Found(s0, acts + [a], d, f)
  {
    assert (acts + [a])[..|acts|] == acts;
  }

  lemma OwnStepFinds(s0: State, acts: seq<Action>, s: State, a: Action, s': State)
    requires Run(s0, acts) == Some(s) && a.Advance? && a.d in s.daemons && DaemonStep(s, a.d, a.answered) == Some(s')
    requires WarrantedEarly(s0, acts, a.d, s.daemons[a.d].pc)
    ensures WarrantedEarly(s0, acts + [a], a.d, s'.daemons[a.d].pc)
  {
    FoundStays(s0, acts, s, a, a.d);
    hide Found, Accepting;
  }

  lemma OthersStay(s: State, a: Action, s': State, d: DaemonId)
    requires Step(s, a) == Some(s') && d in s'.daemons && !(a.Advance? && a.d == d)
    ensures Starting(s'.daemons[d].pc) && s'.daemons[d].pc != EarlyProbe ==>
              d in s.daemons && s'.daemons[d].pc == s.daemons[d].pc
  {
    hide Accepting, LiveAt, Pending;
  }

  lemma MovesOnItsOwn(s: State, a: Action, s': State)
    requires a.Advance? && Step(s, a) == Some(s')
    ensures a.d in s.daemons && DaemonStep(s, a.d, a.answered) == Some(s') && a.d in s'.daemons
  {
    hide Accepting;
  }

  lemma StillWarranted(s0: State, acts: seq<Action>, s: State, a: Action, d: DaemonId, pc: Pc)
    requires Run(s0, acts) == Some(s) && WarrantedEarly(s0, acts, d, pc)
    ensures WarrantedEarly(s0, acts + [a], d, pc)
  {
    FoundStays(s0, acts, s, a, d);
    hide Found, Finds;
  }

  /**
    In every run a daemon touches nothing before a dial of its own went unanswered; and listening, it takes a
    socket away only after a second dial went unanswered, another file only after it saw that it was none, and
    binds only when it has seen or made the path free.
  */
  lemma {:induction false} StartsAreWarranted(s0: State, acts: seq<Action>, s: State, d: DaemonId)
    requires Init(s0) && Run(s0, acts) == Some(s) && d in s.daemons
    ensures WarrantedEarly(s0, acts, d, s.daemons[d].pc)
  {
    hide Step, Found, DaemonStep;
    var front, a := acts[..|acts| - 1], acts[|acts| - 1];
    var before := Run(s0, front).value;
    assert front + [a] == acts;
    if a.Advance? && a.d == d {
      MovesOnItsOwn(before, a, s);
      StartsAreWarranted(s0, front, before, d);
      OwnStepFinds(s0, front, before, a, s);
    } else if Starting(s.daemons[d].pc) && s.daemons[d].pc != EarlyProbe {
      OthersStay(before, a, s, d);
      StartsAreWarranted(s0, front, before, d);
      StillWarranted(s0, front, before, a, d, before.daemons[d].pc);
    }
  }

  // ----- what happens without one of the rules -----

  lemma Start(rules: set<Rule>, s: State)
    requires Init(s)
    ensures ReachableKeeping(rules, s)
  {
    assert Run(s, []) == Some(s) && RunKeeping(rules, s, []);
  }

  lemma Act(rules: set<Rule>, s: State, a: Action) returns (s': State)
    requires ReachableKeeping(rules, s) && Step(s, a).Some? && forall rule :: rule in rules ==> Keeps(s, a, rule)
    ensures ReachableKeeping(rules, s') && Step(s, a) == Some(s')
  {
    hide Init, Step, Keeps;
    s' := Step(s, a).value;
    var s0: State, acts: seq<Action> :| Init(s0) && RunKeeping(rules, s0, acts) && Run(s0, acts) == Some(s);
    assert (acts + [a])[..|acts|] == acts;
    assert Run(s0, acts + [a]) == Some(s') && RunKeeping(rules, s0, acts + [a]);
  }

  /** A step of a daemon that does not dial breaks no rule. */
  lemma Move(rules: set<Rule>, s: State, d: DaemonId) returns (s': State)
    requires ReachableKeeping(rules, s) && d in s.daemons && DaemonStep(s, d, false).Some?
    requires s.daemons[d].pc != EarlyProbe && s.daemons[d].pc != ListenDial
    ensures ReachableKeeping(rules, s') && DaemonStep(s, d, false) == Some(s')
  {
    hide ReachableKeeping, DaemonStep, Accepting, NobodyStarting;
    s' := Act(rules, s, Advance(d, false));
  }

  /** A launch, and a first dial that is not answered. */
  lemma LaunchAndDial(rules: set<Rule>, s: State, d: DaemonId) returns (s': State)
    requires ReachableKeeping(rules, s) && d !in s.daemons
    requires OneStarter in rules ==> NobodyStarting(s)
    requires TrueDials in rules ==> !Accepting(s)
    ensures ReachableKeeping(rules, s') && s' == s.(daemons := s.daemons[d := Daemon(StatStale, 0)])
  {
    hide ReachableKeeping;
    s' := Act(rules, s, Launch(d));
    AcceptingIsAboutLive(s, s');
    s' := Act(rules, s', Advance(d, false));
    assert s'.daemons == s.daemons[d := Daemon(StatStale, 0)];
  }

  lemma AcceptingIsAboutLive(s: State, s': State)
    requires s'.path == s.path
    requires forall d :: d in s'.daemons && Live(s'.daemons[d]) ==> d in s.daemons && s.daemons[d] == s'.daemons[d]
    ensures Accepting(s') ==> Accepting(s)
  {
  }

  /** From the look at the path to the bind, with no file there. */
  lemma BindFreePath(rules: set<Rule>, s: State, d: DaemonId, ino: Inode) returns (s': State)
    requires ReachableKeeping(rules, s) && d in s.daemons && s.daemons[d].pc == ListenStat && s.path == None
    requires !LiveAt(s, ino) && (UnsharedInodes in rules ==> Pending(s, ino) == {})
    ensures ReachableKeeping(rules, s')
    ensures s' == State(Some(Node(ino, true, Some(d), Pending(s, ino))), s.daemons[d := Daemon(Serving, ino)], Some(d))
  {
    hide ReachableKeeping;
    s' := Move(rules, s, d);
    assert Pending(s', ino) == Pending(s, ino);
    s' := Act(rules, s', Bind(d, ino, true));
    assert s'.daemons == s.daemons[d := Daemon(Serving, ino)];
  }

  /** The same after a file that is there has been taken for a stale one. */
  lemma ReplaceFile(rules: set<Rule>, s: State, d: DaemonId, ino: Inode) returns (s': State)
    requires ReachableKeeping(rules, s) && d in s.daemons && s.daemons[d].pc == StatStale && s.path.Some?
    requires !LiveAt(s, ino) && (UnsharedInodes in rules ==> Pending(s, ino) == {})
    ensures ReachableKeeping(rules, s')
    ensures s' == State(Some(Node(ino, true, Some(d), Pending(s, ino))), s.daemons[d := Daemon(Serving, ino)], Some(d))
  {
    hide ReachableKeeping;
    s' := Move(rules, s, d);
    s' := Move(rules, s', d);
    assert Pending(s', ino) == Pending(s, ino);
    s' := BindFreePath(rules, s', d, ino);
    assert s'.daemons == s.daemons[d := Daemon(Serving, ino)];
  }

  /** Whatever file nobody serves at is there, a daemon that listens takes it away and serves. */
  lemma ListensOverStaleFile(rules: set<Rule>, s: State, d: DaemonId, ino: Inode) returns (s': State)
    requires ReachableKeeping(rules, s) && d in s.daemons && s.daemons[d].pc == ListenStat && s.path.Some?
    requires !Accepting(s) && !LiveAt(s, ino) && (UnsharedInodes in rules ==> Pending(s, ino) == {})
    ensures ReachableKeeping(rules, s')
    ensures s' == State(Some(Node(ino, true, Some(d), Pending(s, ino))), s.daemons[d := Daemon(Serving, ino)], Some(d))
  {
    hide ReachableKeeping, NobodyStarting;
    s' := Move(rules, s, d);
    if s.path.value.isSocket {
      AcceptingIsAboutLive(s, s');
      s' := Act(rules, s', Advance(d, false));
    }
    s' := Move(rules, s', d);
    assert Pending(s', ino) == Pending(s, ino);
    s' := Act(rules, s', Bind(d, ino, true));
    assert s'.daemons == s.daemons[d := Daemon(Serving, ino)];
  }

  lemma LookAtFreePath(rules: set<Rule>, s: State, d: DaemonId) returns (s': State)
    requires ReachableKeeping(rules, s) && d in s.daemons && s.daemons[d].pc == StatStale && s.path == None
    ensures ReachableKeeping(rules, s') && s' == Goto(s, d, ListenStat)
  {
    hide ReachableKeeping;
    s' := Move(rules, s, d);
  }

  /** One daemon serving, on inode 7. */
  const ALONE := State(Some(Node(7, true, Some(0), {})), map[0 := Daemon(Serving, 7)], Some(0))

  lemma AloneIsReachable(rules: set<Rule>)
    ensures ReachableKeeping(rules, ALONE)
  {
    hide ReachableKeeping;
    var s := State(None, map[], None);
    Start(rules, s);
    s := LaunchAndDial(rules, s, 0);
    s := LookAtFreePath(rules, s, 0);
    assert Pending(s, 7) == {};
    s := BindFreePath(rules, s, 0, 7);
    assert s.daemons == map[0 := Daemon(Serving, 7)];
  }

  /** The witnesses all end so: daemons `d` and `e` both serve. */
  predicate BothServe(s: State, d: DaemonId, e: DaemonId) {
    d != e && d in s.daemons && e in s.daemons && s.daemons[d].pc == s.daemons[e].pc == Serving
  }

  lemma BothIsNotOne(s: State, d: DaemonId, e: DaemonId)
    requires BothServe(s, d, e)
    ensures !OneServes(s)
  {
  }

  /** A dial that fails though the owner listens. */
  lemma FalseDialMakesTwo()
    ensures exists s: State :: ReachableKeeping(EVERY_RULE - {TrueDials}, s) && !OneServes(s)
  {
    hide ReachableKeeping, OneServes;
    var rules := EVERY_RULE - {TrueDials};
    AloneIsReachable(rules);
    var s := LaunchAndDial(rules, ALONE, 1);
    s := ReplaceFile(rules, s, 1, 8);
    BothIsNotOne(s, 0, 1);
  }

  /** A file deleted from outside. */
  lemma WipeMakesTwo()
    ensures exists s: State :: ReachableKeeping(EVERY_RULE - {NoWipes}, s) && !OneServes(s)
  {
    hide ReachableKeeping, OneServes;
    var rules := EVERY_RULE - {NoWipes};
    AloneIsReachable(rules);
    var s := Act(rules, ALONE, Wipe);
    s := LaunchAndDial(rules, s, 1);
    s := LookAtFreePath(rules, s, 1);
    s := BindFreePath(rules, s, 1, 8);
    BothIsNotOne(s, 0, 1);
  }

  /** Two daemons launched together: the later one takes the file of the earlier for a stale one. */
  lemma OverlapMakesTwo()
    ensures exists s: State :: ReachableKeeping(EVERY_RULE - {OneStarter}, s) && !OneServes(s)
  {
    hide ReachableKeeping, OneServes;
    var rules := EVERY_RULE - {OneStarter};
    var s := State(None, map[], None);
    Start(rules, s);
    s := LaunchAndDial(rules, s, 0);
    s := LaunchAndDial(rules, s, 1);
    s := LookAtFreePath(rules, s, 0);
    s := BindFreePath(rules, s, 0, 7);
    s := ReplaceFile(rules, s, 1, 8);
    BothIsNotOne(s, 0, 1);
  }

  /** Daemon 0 has let go of inode 7 and not compared yet; daemon 1 has been given the number. */
  lemma SharedInode() returns (s: State)
    ensures ReachableKeeping(EVERY_RULE - {UnsharedInodes}, s)
    ensures s == State(Some(Node(7, true, Some(1), {0})), map[0 := Daemon(CheckPath, 7), 1 := Daemon(Serving, 7)],
              Some(1))
  {
    hide ReachableKeeping;
    var rules := EVERY_RULE - {UnsharedInodes};
    AloneIsReachable(rules);
    s := Act(rules, ALONE, Shutdown(0));
    s := Move(rules, s, 0);
    s := LaunchAndDial(rules, s, 1);
    s := ReplaceFile(rules, s, 1, 7);
    assert s.daemons == map[0 := Daemon(CheckPath, 7), 1 := Daemon(Serving, 7)];
    assert s.path.value.tookFrom == {0};
  }

  /** With a reused inode number the Close of one daemon unlinks the owner's file, with every other rule kept. */
  lemma CloseCanRemoveTheOwnersFile()
    ensures exists s: State, d: DaemonId, e: DaemonId ::
              && ReachableKeeping(EVERY_RULE - {UnsharedInodes}, s)
              && d in s.daemons && s.daemons[d].pc == CheckPath && Owns(s, e) && e != d
              && Step(s, Advance(d, false)).Some? && !Owns(Step(s, Advance(d, false)).value, e)
  {
    hide ReachableKeeping;
    var s := SharedInode();
    assert Owns(s, 1) && 0 in s.daemons && s.daemons[0].pc == CheckPath;
    assert !Owns(Step(s, Advance(0, false)).value, 1);
  }

  /** And a daemon launched after that serves beside the one that lost its file. */
  lemma SharedInodeMakesTwo()
    ensures exists s: State :: ReachableKeeping(EVERY_RULE - {UnsharedInodes}, s) && !OneServes(s)
  {
    hide ReachableKeeping, OneServes;
    var rules := EVERY_RULE - {UnsharedInodes};
    var s := SharedInode();
    s := Move(rules, s, 0);
    s := LaunchAndDial(rules, s, 2);
    s := LookAtFreePath(rules, s, 2);
    s := BindFreePath(rules, s, 2, 8);
    BothIsNotOne(s, 1, 2);
  }
}
