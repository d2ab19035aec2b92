/**
  Clients and daemons together: the spawn lock is what keeps daemons from starting side by side.

  The clients are those of `Spawn`, the daemons those of `SocketOwnership`. A daemon is launched only by a
  client's launching step, and what a client can see of the socket is what the daemons have made of it.
*/
module Rendezvous {
  import opened Wrappers
  import C = Spawn
  import D = SocketOwnership

  datatype State = State(clients: C.State, daemons: D.State)

  /** `d` is the daemon launched, if the client's step launches one. */
  datatype Action =
    | ClientMoves(c: C.Action, d: D.DaemonId)
    | DaemonMoves(a: D.Action)

  /** What a client's stat and dial find at the path. */
  function ReachOf(s: D.State): C.Reach {
    if D.Accepting(s) then C.Answering
    else if s.path.Some? && !s.path.value.isSocket then C.Hostile
    else C.Absent
  }

  predicate Init(s: State) {
    C.Init(s.clients) && D.Init(s.daemons) && s.clients.reach == ReachOf(s.daemons)
  }

  function ClientStep(s: State, a: C.Action, d: D.DaemonId): Option<State> {
    if a.Become? then None
    else
      match C.Step(s.clients, a)
      case None => None
      case Some(clients) =>
        if clients.launches == s.clients.launches then Some(State(clients, s.daemons))
        else
          match D.Step(s.daemons, D.Launch(d))
          case None => None
          case Some(daemons) => Some(State(clients, daemons))
  }

  function DaemonStep(s: State, a: D.Action): Option<State> {
    if a.Launch? then None
    else
      match D.Step(s.daemons, a)
      case None => None
      case Some(daemons) => Some(State(C.Step(s.clients, C.Become(ReachOf(daemons))).value, daemons))
  }

  function Step(s: State, a: Action): Option<State> {
    match a
    case ClientMoves(c, d) => ClientStep(s, c, d)
    case DaemonMoves(m) => DaemonStep(s, m)
  }

  /** The rules that the spawn lock has no part in. */
  const OTHER_RULES := D.EVERY_RULE - {D.OneStarter}

  predicate Keeps(s: State, a: Action) {
    a.DaemonMoves? ==> forall rule :: rule in OTHER_RULES ==> D.Keeps(s.daemons, a.a, rule)
  }

  /** The state a run ends in, if every step is possible and keeps the other rules. */
  function Run(s: State, acts: seq<Action>): Option<State> {
    if acts == [] then Some(s)
    else
      var r := Run(s, acts[..|acts| - 1]);
      var a := acts[|acts| - 1];
      if r == None || !Keeps(r.value, a) then None else Step(r.value, a)
  }

  ghost predicate Reachable(s: State) {
    exists s0: State, acts: seq<Action> :: Init(s0) && Run(s0, acts) == Some(s)
  }

  /** No wait has given up, and no client has been killed while it waited. */
  predicate EveryWaitEnded(s: State) {
    s.clients.failedWaits == 0 && s.clients.abandoned == 0
  }

  // ----- the inductive invariant -----

  predicate NoneLive(s: D.State) {
    forall d :: d in s.daemons ==> !D.Live(s.daemons[d])
  }

  /**
    Daemons start only under a waiting client, and never beside a live one; a client about to launch has the
    field to itself.
  */
  predicate Calm(s: State) {
    && s.clients.reach == ReachOf(s.daemons)
    && (!C.SomeoneWaits(s.clients) ==> D.NobodyStarting(s.daemons))
    && (C.AboutToLaunch(s.clients) ==> NoneLive(s.daemons))
    && (C.SomeoneWaits(s.clients) ==> D.NobodyStarting(s.daemons) || NoneLive(s.daemons))
  }

  predicate Inv(s: State) {
    C.LockOk(s.clients) && D.Inv(s.daemons) && D.Orderly(s.daemons) && Calm(s)
  }

  // ----- a step of a daemon -----

  /** A daemon becomes live only by its bind, and then nobody is left starting. */
  lemma LiveByBind(s: D.State, a: D.Action, s': D.State)
    requires D.StartersApart(s) && !a.Launch? && D.Step(s, a) == Some(s')
    ensures NoneLive(s) ==> NoneLive(s') || D.NobodyStarting(s')
    ensures D.NobodyStarting(s) ==> D.NobodyStarting(s') && (NoneLive(s) ==> NoneLive(s'))
  {
    hide D.Accepting, D.LiveAt, D.Pending;
  }

  lemma DaemonKeepsCalm(s: State, a: D.Action, s': State)
    requires Inv(s) && DaemonStep(s, a) == Some(s')
    ensures Calm(s') && C.LockOk(s'.clients)
  {
    hide D.Step, D.Inv, D.StartersApart, D.NobodyStarting, NoneLive, ReachOf;
    LiveByBind(s.daemons, a, s'.daemons);
    C.StepKeepsLock(s.clients, C.Become(ReachOf(s'.daemons)), s'.clients);
    C.Decided(s.clients);
    hide C.LockOk;
  }

  // ----- a step of a client -----

  /** Whoever finds the socket absent finds no live daemon: a live one owns the path. */
  lemma AbsentMeansNone(s: D.State)
    requires D.LiveOwns(s) && ReachOf(s) == C.Absent
    ensures NoneLive(s)
  {
  }

  lemma AnsweringMeansSome(s: D.State)
    requires ReachOf(s) == C.Answering
    ensures !NoneLive(s)
  {
  }

  /** A launch comes from a client that is about to launch, and leaves it waiting. */
  lemma LaunchLeavesAWaiter(s: C.State, a: C.Action, s': C.State)
    requires C.LockOk(s) && C.Step(s, a) == Some(s') && s'.launches != s.launches
    ensures C.AboutToLaunch(s) && !C.SomeoneWaits(s) && C.SomeoneWaits(s') && !C.AboutToLaunch(s')
    ensures s'.reach == s.reach && s'.launches == s.launches + 1
  {
    C.StepKeepsLock(s, a, s');
    C.Decided(s);
    C.Decided(s');
    assert s.clients[a.c] == C.Launching && s'.clients[a.c] == C.Waiting;
    hide C.SomeoneWaits, C.AboutToLaunch;
  }

  /** What the other steps of clients can change of what `Calm` speaks of. */
  lemma ClientMayNotice(s: C.State, a: C.Action, s': C.State)
    requires C.LockOk(s) && C.Step(s, a) == Some(s') && !a.Become? && s'.launches == s.launches
    requires s'.failedWaits == 0 && s'.abandoned == 0
    ensures s'.reach == s.reach && (C.SomeoneWaits(s') ==> C.SomeoneWaits(s))
    ensures C.SomeoneWaits(s) && !C.SomeoneWaits(s') ==> s.reach == C.Answering
    ensures C.AboutToLaunch(s') && !C.AboutToLaunch(s) ==> s.reach == C.Absent
  {
    C.StepKeepsLock(s, a, s');
    C.Decided(s);
    C.Decided(s');
    hide C.SomeoneWaits, C.AboutToLaunch;
  }

  lemma LaunchKeepsCalm(s: State, d: D.DaemonId, clients: C.State, daemons: D.State)
    requires Calm(s) && D.Step(s.daemons, D.Launch(d)) == Some(daemons)
    requires C.AboutToLaunch(s.clients) && clients.reach == s.clients.reach
    requires C.SomeoneWaits(clients) && !C.AboutToLaunch(clients)
    ensures Calm(State(clients, daemons))
  {
    hide C.SomeoneWaits, C.AboutToLaunch;
    D.AcceptingIsAboutLive(s.daemons, daemons);
    D.AcceptingIsAboutLive(daemons, s.daemons);
  }

  lemma ClientKeepsCalm(s: State, a: C.Action, d: D.DaemonId, s': State)
    requires Inv(s) && ClientStep(s, a, d) == Some(s') && EveryWaitEnded(s')
    ensures Calm(s') && C.LockOk(s'.clients)
    ensures s'.daemons != s.daemons ==> D.NobodyStarting(s.daemons)
  {
    hide C.Step, D.Step, D.Inv, D.StartersApart, D.LiveOwns, D.NobodyStarting, NoneLive, ReachOf;
    hide C.LockOk, C.SomeoneWaits, C.AboutToLaunch;
    C.StepKeepsLock(s.clients, a, s'.clients);
    if s'.clients.launches == s.clients.launches {
      ClientMayNotice(s.clients, a, s'.clients);
      if s.clients.reach == C.Absent {
        AbsentMeansNone(s.daemons);
      }
      if s.clients.reach == C.Answering {
        AnsweringMeansSome(s.daemons);
      }
    } else {
      LaunchLeavesAWaiter(s.clients, a, s'.clients);
      LaunchKeepsCalm(s, d, s'.clients, s'.daemons);
    }
  }

  // ----- runs -----

  /** Counts never go down, so a run that ends with every wait answered had no other all along. */
  lemma WaitsAreCounted(s: State, a: Action, s': State)
    requires Step(s, a) == Some(s') && EveryWaitEnded(s')
    ensures EveryWaitEnded(s)
  {
    hide D.Step, ReachOf;
  }

  lemma OrderlyDaemons(s: D.State)
    requires D.ReachableKeeping(D.EVERY_RULE, s)
    ensures D.Inv(s) && D.Orderly(s)
  {
    hide D.Run, D.RunKeeping, D.Init, D.Inv, D.Orderly;
    var s0: D.State, acts: seq<D.Action> :|
      D.Init(s0) && D.RunKeeping(D.EVERY_RULE, s0, acts) && D.Run(s0, acts) == Some(s);
    D.OrderlyRun(s0, acts, s);
    assert D.Reachable(s);
    D.ReachableInv(s);
  }

  /** Any daemon step allowed here keeps every rule, and so does a launch while nobody is starting. */
  lemma DaemonsKeepEveryRule(s: State, a: Action, s': State)
    requires D.ReachableKeeping(D.EVERY_RULE, s.daemons) && Keeps(s, a) && Step(s, a) == Some(s')
    requires a.ClientMoves? && s'.daemons != s.daemons ==> D.NobodyStarting(s.daemons)
    ensures D.ReachableKeeping(D.EVERY_RULE, s'.daemons)
  {
    hide D.ReachableKeeping, C.Step, D.Step, ReachOf, D.NobodyStarting;
    if a.DaemonMoves? {
      var daemons := D.Act(D.EVERY_RULE, s.daemons, a.a);
    } else if s'.daemons != s.daemons {
      var daemons := D.Act(D.EVERY_RULE, s.daemons, D.Launch(a.d));
    }
  }

  lemma StepKeepsInv(s: State, a: Action, s': State)
    requires Inv(s) && D.ReachableKeeping(D.EVERY_RULE, s.daemons)
    requires Keeps(s, a) && Step(s, a) == Some(s') && EveryWaitEnded(s')
    ensures Inv(s') && D.ReachableKeeping(D.EVERY_RULE, s'.daemons)
  {
    hide ClientStep, DaemonStep, Keeps, Calm, C.LockOk, D.Inv, D.Orderly, D.ReachableKeeping, D.NobodyStarting;
    match a
    case ClientMoves(c, d) =>
      ClientKeepsCalm(s, c, d, s');
      DaemonsKeepEveryRule(s, a, s');
      OrderlyDaemons(s'.daemons);
    case DaemonMoves(m) =>
      DaemonKeepsCalm(s, m, s');
      DaemonsKeepEveryRule(s, a, s');
      OrderlyDaemons(s'.daemons);
  }

  lemma InitInv(s: State)
    requires Init(s)
    ensures Inv(s) && D.ReachableKeeping(D.EVERY_RULE, s.daemons)
  {
    D.Start(D.EVERY_RULE, s.daemons);
    hide D.ReachableKeeping;
  }

  lemma {:induction false} RunKeepsInv(s0: State, acts: seq<Action>, s: State)
    requires Init(s0) && Run(s0, acts) == Some(s) && EveryWaitEnded(s)
    ensures Inv(s) && D.ReachableKeeping(D.EVERY_RULE, s.daemons)
  {
    hide Step, Inv, Keeps, D.ReachableKeeping, Init, EveryWaitEnded;
    if acts == [] {
      InitInv(s);
    } else {
      var front, a := acts[..|acts| - 1], acts[|acts| - 1];
      var before := Run(s0, front).value;
      WaitsAreCounted(before, a, s);
      RunKeepsInv(s0, front, before);
      StepKeepsInv(before, a, s);
    }
  }

  // ----- the theorem -----

  /** The clients' side of a run is a run of clients, and each launch of theirs is a daemon of the other side. */
  lemma {:induction false} ClientsSide(s0: State, acts: seq<Action>, s: State)
    requires Init(s0) && Run(s0, acts) == Some(s)
    ensures C.Reachable(s.clients) && |s.daemons.daemons| == s.clients.launches
  {
    hide Step, Keeps, C.Reachable;
    if acts == [] {
      C.Start(s.clients);
    } else {
      var front, a := acts[..|acts| - 1], acts[|acts| - 1];
      ClientsSide(s0, front, Run(s0, front).value);
      ClientsStep(Run(s0, front).value, a, s);
    }
  }

  lemma ClientsStep(s: State, a: Action, s': State)
    requires C.Reachable(s.clients) && |s.daemons.daemons| == s.clients.launches && Step(s, a) == Some(s')
    ensures C.Reachable(s'.clients) && |s'.daemons.daemons| == s'.clients.launches
  {
    hide C.Reachable, C.LockOk, C.CreditOk, ReachOf;
    C.ReachableInv(s.clients);
    match a
    case ClientMoves(c, d) =>
      hide D.Step;
      C.Extend(s.clients, c, s'.clients);
      hide C.Step;
      if s'.clients.launches != s.clients.launches {
        LaunchLeavesAWaiter(s.clients, c, s'.clients);
        OneMore(s.daemons, d, s'.daemons);
      }
    case DaemonMoves(m) =>
      C.Extend(s.clients, C.Become(ReachOf(s'.daemons)), s'.clients);
      hide C.Step;
      NoneMore(s.daemons, m, s'.daemons);
  }

  lemma OneMore(s: D.State, d: D.DaemonId, s': D.State)
    requires D.Step(s, D.Launch(d)) == Some(s')
    ensures |s'.daemons| == |s.daemons| + 1
  {
    assert s'.daemons.Keys == s.daemons.Keys + {d};
    assert |s'.daemons.Keys| == |s.daemons.Keys| + 1;
  }

  lemma NoneMore(s: D.State, a: D.Action, s': D.State)
    requires !a.Launch? && D.Step(s, a) == Some(s')
    ensures |s'.daemons| == |s.daemons|
  {
    hide D.Accepting, D.LiveAt, D.Pending;
    assert s'.daemons.Keys == s.daemons.Keys;
    assert |s'.daemons.Keys| == |s.daemons.Keys|;
  }

  /**
    However many clients race, as long as every wait is answered, the daemons they launch serve one at a time,
    each owning the path while it serves; and there are at most one, and one more for each time the socket
    went from answering to absent.
  */
  lemma LaunchedDaemonsServeAlone(s: State)
    requires Reachable(s) && EveryWaitEnded(s)
    ensures D.ReachableKeeping(D.EVERY_RULE, s.daemons)
    ensures D.OneServes(s.daemons)
    ensures forall d :: d in s.daemons.daemons && D.Live(s.daemons.daemons[d]) ==> D.Owns(s.daemons, d)
    ensures |s.daemons.daemons| <= 1 + s.clients.drops
  {
    hide Run, Init, Inv, C.Reachable, D.ReachableKeeping, D.OneServes, D.Owns;
    var s0: State, acts: seq<Action> :| Init(s0) && Run(s0, acts) == Some(s);
    RunKeepsInv(s0, acts, s);
    ClientsSide(s0, acts, s);
    D.AtMostOneServes(s.daemons);
    C.LaunchBound(s.clients);
  }

  // ----- recovery -----

  /** Whatever became of the waits, the daemons keep the rules that the spawn lock has no part in. */
  lemma {:induction false} OtherRulesKept(s0: State, acts: seq<Action>, s: State)
    requires Init(s0) && Run(s0, acts) == Some(s)
    ensures D.ReachableKeeping(OTHER_RULES, s.daemons) && s.clients.reach == ReachOf(s.daemons)
  {
    hide Step, Keeps, D.ReachableKeeping, ReachOf;
    if acts == [] {
      D.Start(OTHER_RULES, s.daemons);
    } else {
      var front, a := acts[..|acts| - 1], acts[|acts| - 1];
      var before := Run(s0, front).value;
      OtherRulesKept(s0, front, before);
      OtherRulesStep(before, a, s);
    }
  }

  lemma OtherRulesStep(s: State, a: Action, s': State)
    requires D.ReachableKeeping(OTHER_RULES, s.daemons) && s.clients.reach == ReachOf(s.daemons)
    requires Keeps(s, a) && Step(s, a) == Some(s')
    ensures D.ReachableKeeping(OTHER_RULES, s'.daemons) && s'.clients.reach == ReachOf(s'.daemons)
  {
    hide D.ReachableKeeping, D.NobodyStarting, D.DaemonStep, D.BindStep, ReachOf;
    if a.DaemonMoves? {
      hide D.Step;
      var daemons := D.Act(OTHER_RULES, s.daemons, a.a);
    } else {
      ClientLeavesReach(s, a.c, a.d, s');
      if s'.daemons != s.daemons {
        var daemons := D.Act(OTHER_RULES, s.daemons, D.Launch(a.d));
      }
    }
  }

  lemma ClientLeavesReach(s: State, a: C.Action, d: D.DaemonId, s': State)
    requires ClientStep(s, a, d) == Some(s')
    ensures s'.clients.reach == s.clients.reach && ReachOf(s'.daemons) == ReachOf(s.daemons)
  {
    D.AcceptingIsAboutLive(s.daemons, s'.daemons);
    D.AcceptingIsAboutLive(s'.daemons, s.daemons);
    hide D.Accepting;
  }

  predicate Settled(s: D.State) {
    D.Inv(s) && D.NobodyStarting(s) && D.NothingTaken(s)
  }

  /** The daemon serves at the path, and clients find it. */
  predicate Found(s: State, d: D.DaemonId) {
    D.Owns(s.daemons, d) && s.daemons.binder == Some(d) && s.clients.reach == C.Answering
  }

  /** Of the serving daemons, those whose watchdog has looked since. */
  predicate Watched(s: State, acts: seq<Action>, d: D.DaemonId) {
    d in s.daemons.daemons && s.daemons.daemons[d].pc == D.Serving && DaemonMoves(D.Watch(d)) in acts
  }

  /** The daemons' part of a step taken while nobody starts and nobody launches. */
  lemma SettledStep(s: State, a: Action, s': State, d: D.DaemonId)
    requires Settled(s.daemons) && Keeps(s, a) && Step(s, a) == Some(s') && s'.clients.launches == s.clients.launches
    ensures Settled(s'.daemons)
    ensures d in s'.daemons.daemons && s'.daemons.daemons[d].pc == D.Serving ==>
              d in s.daemons.daemons && s.daemons.daemons[d].pc == D.Serving
              && (D.Owns(s.daemons, d) || a == DaemonMoves(D.Watch(d)) ==> D.Owns(s'.daemons, d))
  {
    hide C.Step, ReachOf, D.DaemonStep, D.BindStep, D.NobodyStarting, D.Inv, D.NothingTaken, D.Owns;
    if a.DaemonMoves? {
      assert D.Keeps(s.daemons, a.a, D.NoWipes) && D.Keeps(s.daemons, a.a, D.UnsharedInodes);
      D.StepKeepsInv(s.daemons, a.a, s'.daemons);
      D.QuietStep(s.daemons, a.a, s'.daemons);
      D.StepTakesNothing(s.daemons, a.a, s'.daemons);
      if d in s'.daemons.daemons && s'.daemons.daemons[d].pc == D.Serving {
        if D.Owns(s.daemons, d) {
          D.QuietStepKeepsOwner(s.daemons, a.a, s'.daemons, d);
        } else if a.a == D.Watch(d) {
          WatchedOwns(s.daemons, d, s'.daemons);
        }
      }
    }
  }

  lemma WatchedOwns(s: D.State, d: D.DaemonId, s': D.State)
    requires D.Step(s, D.Watch(d)) == Some(s') && s'.daemons[d].pc == D.Serving
    ensures D.Owns(s', d)
  {
  }

  lemma {:induction false} SettledRun(s: State, acts: seq<Action>, s': State)
    requires Settled(s.daemons) && Run(s, acts) == Some(s') && s'.clients.launches == s.clients.launches
    ensures Settled(s'.daemons)
    ensures forall d :: Watched(s', acts, d) ==> D.Owns(s'.daemons, d)
    decreases |acts|
  {
    hide Step, Keeps, Settled, D.Owns;
    if acts != [] {
      var front, a := acts[..|acts| - 1], acts[|acts| - 1];
      var before := Run(s, front).value;
      LaunchesGrow(s, front, before);
      LaunchesGrow(before, [a], s');
      SettledRun(s, front, before);
      SettledStep(before, a, s', 0);
      forall d | Watched(s', acts, d)
        ensures D.Owns(s'.daemons, d)
      {
        SettledStep(before, a, s', d);
        assert acts == front + [a];
      }
    }
  }

  lemma {:induction false} LaunchesGrow(s: State, acts: seq<Action>, s': State)
    requires Run(s, acts) == Some(s')
    ensures s.clients.launches <= s'.clients.launches
    decreases |acts|
  {
    hide D.Step, ReachOf, Keeps;
    if acts != [] {
      var front := acts[..|acts| - 1];
      LaunchesGrow(s, front, Run(s, front).value);
    }
  }

  /**
    However it came to several daemons: once nobody is starting and no more are launched, every daemon that
    still serves after its watchdog has looked once owns the path, so there is at most one of them, and it is
    the one that clients find.
  */
  lemma WatchdogsRecover(s0: State, pre: seq<Action>, s: State, acts: seq<Action>, s': State)
    requires Init(s0) && Run(s0, pre) == Some(s) && D.NobodyStarting(s.daemons)
    requires Run(s, acts) == Some(s') && s'.clients.launches == s.clients.launches
    ensures forall d :: Watched(s', acts, d) ==> Found(s', d)
    ensures forall d, e :: Watched(s', acts, d) && Watched(s', acts, e) ==> d == e
  {
    hide Run, Init, D.ReachableKeeping, D.NobodyStarting, D.Owns, ReachOf;
    OtherRulesKept(s0, pre, s);
    TakesNothing(s.daemons);
    SettledRun(s, acts, s');
    ReachKept(s, acts, s');
    forall d | Watched(s', acts, d)
      ensures Found(s', d)
    {
      OwnerIsFound(s', d);
    }
  }

  lemma TakesNothing(s: D.State)
    requires D.ReachableKeeping(OTHER_RULES, s)
    ensures D.Inv(s) && D.NothingTaken(s)
  {
    hide D.Run, D.RunKeeping, D.Init, D.Inv, D.NothingTaken;
    var s0: D.State, acts: seq<D.Action> :|
      D.Init(s0) && D.RunKeeping(OTHER_RULES, s0, acts) && D.Run(s0, acts) == Some(s);
    D.RunTakesNothing(OTHER_RULES, s0, acts, s);
    assert D.Reachable(s);
    D.ReachableInv(s);
  }

  lemma {:induction false} ReachKept(s: State, acts: seq<Action>, s': State)
    requires Run(s, acts) == Some(s') && s.clients.reach == ReachOf(s.daemons)
    ensures s'.clients.reach == ReachOf(s'.daemons)
    decreases |acts|
  {
    hide ClientStep, D.Step, ReachOf, Keeps;
    if acts != [] {
      var front, a := acts[..|acts| - 1], acts[|acts| - 1];
      var before := Run(s, front).value;
      ReachKept(s, front, before);
      if a.ClientMoves? {
        ClientLeavesReach(before, a.c, a.d, s');
      }
    }
  }

  lemma OwnerIsFound(s: State, d: D.DaemonId)
    requires D.Inv(s.daemons) && D.Owns(s.daemons, d) && s.clients.reach == ReachOf(s.daemons)
    ensures Found(s, d)
  {
  }

  // ----- a wait that ends without an answer -----

  lemma Start(s: State)
    requires Init(s)
    ensures Reachable(s)
  {
    assert Run(s, []) == Some(s);
  }

  lemma Act(s: State, a: Action) returns (s': State)
    requires Reachable(s) && Keeps(s, a) && Step(s, a).Some?
    ensures Reachable(s') && Step(s, a) == Some(s')
  {
    hide Init, Step, Keeps;
    s' := Step(s, a).value;
    var s0: State, acts: seq<Action> :| Init(s0) && Run(s0, acts) == Some(s);
    assert (acts + [a])[..|acts|] == acts;
    assert Run(s0, acts + [a]) == Some(s');
  }

  /** A client's step that launches nothing. */
  lemma ClientActs(s: State, a: C.Action) returns (s': State)
    requires Reachable(s) && !a.Become? && C.Step(s.clients, a).Some?
    requires C.Step(s.clients, a).value.launches == s.clients.launches
    ensures Reachable(s') && C.Step(s.clients, a) == Some(s'.clients) && s'.daemons == s.daemons
  {
    hide Reachable, C.Step, D.Step;
    s' := Act(s, ClientMoves(a, 0));
  }

  /** A daemon's step, of which the clients only see what it does to the socket. */
  lemma DaemonActs(s: State, a: D.Action) returns (s': State)
    requires Reachable(s) && !a.Launch? && D.Step(s.daemons, a).Some? && Keeps(s, DaemonMoves(a))
    ensures Reachable(s') && D.Step(s.daemons, a) == Some(s'.daemons)
    ensures s'.clients.failedWaits == s.clients.failedWaits && s'.clients.abandoned == s.clients.abandoned
    ensures s.clients.reach == C.Absent && !s.clients.answered && ReachOf(s'.daemons) == C.Absent ==>
              s'.clients == s.clients
  {
    hide Reachable, D.Step, ReachOf, Keeps;
    s' := Act(s, DaemonMoves(a));
  }

  /** One more client finds nobody, launches a daemon and waits. */
  lemma LaunchAndWait(s: State, c: C.ClientId, d: D.DaemonId) returns (s': State)
    requires Reachable(s) && s.clients.lock == None && s.clients.reach == C.Absent
    requires c !in s.clients.clients && d !in s.daemons.daemons
    ensures Reachable(s')
    ensures s'.clients == C.Goto(s.clients.(lock := Some(c), launches := s.clients.launches + 1), c, C.Waiting)
    ensures s'.daemons == s.daemons.(daemons := s.daemons.daemons[d := D.Daemon(D.EarlyProbe, 0)])
  {
    hide Reachable;
    s' := ClientActs(s, C.Call(c));
    s' := ClientActs(s', C.Probe(c, C.Absent));
    s' := ClientActs(s', C.Advance(c, true));
    s' := ClientActs(s', C.Advance(c, true));
    s' := ClientActs(s', C.Probe(c, C.Absent));
    s' := ClientActs(s', C.Advance(c, true));
    s' := Act(s', ClientMoves(C.Advance(c, true), d));
    assert s'.clients.clients == s.clients.clients[c := C.Waiting];
  }

  /** The waiter gives up, or is killed; either way the lock is free while its daemon is still starting. */
  lemma LoseWaiter(s: State, c: C.ClientId, killed: bool) returns (s': State)
    requires Reachable(s) && C.LockOk(s.clients) && c in s.clients.clients && s.clients.clients[c] == C.Waiting
    ensures Reachable(s') && s'.daemons == s.daemons && s'.clients.lock == None
    ensures s'.clients.clients.Keys <= s.clients.clients.Keys
    ensures s'.clients.reach == s.clients.reach && s'.clients.answered == s.clients.answered
    ensures s'.clients.failedWaits == s.clients.failedWaits + if killed then 0 else 1
    ensures s'.clients.abandoned == s.clients.abandoned + if killed then 1 else 0
  {
    hide Reachable;
    if killed {
      s' := ClientActs(s, C.Kill(c));
    } else {
      s' := ClientActs(s, C.Advance(c, false));
      s' := ClientActs(s', C.Advance(c, true));
    }
  }

  /** Two daemons past their first dial, launched by two clients, of which the first no longer waits. */
  lemma TwoStarters(killed: bool) returns (s: State)
    ensures Reachable(s) && s.clients.failedWaits == (if killed then 0 else 1)
    ensures s.clients.abandoned == (if killed then 1 else 0)
    ensures s.daemons == D.State(None, map[0 := D.Daemon(D.StatStale, 0), 1 := D.Daemon(D.StatStale, 0)], None)
  {
    hide Reachable;
    s := State(C.State(map[], None, C.Absent, false, 0, 0, 0, 0), D.State(None, map[], None));
    Start(s);
    s := LaunchAndWait(s, 0, 0);
    s := DaemonActs(s, D.Advance(0, false));
    s := LoseWaiter(s, 0, killed);
    s := LaunchAndWait(s, 1, 1);
    s := DaemonActs(s, D.Advance(1, false));
    assert s.daemons.daemons == map[0 := D.Daemon(D.StatStale, 0), 1 := D.Daemon(D.StatStale, 0)];
  }

  /** A step of a daemon that neither dials nor binds keeps the other rules. */
  lemma DaemonMovesOn(s: State, d: D.DaemonId) returns (s': State)
    requires Reachable(s) && d in s.daemons.daemons && D.DaemonStep(s.daemons, d, false).Some?
    requires s.daemons.daemons[d].pc != D.EarlyProbe && s.daemons.daemons[d].pc != D.ListenDial
    ensures Reachable(s') && D.DaemonStep(s.daemons, d, false) == Some(s'.daemons)
    ensures s'.clients.failedWaits == s.clients.failedWaits && s'.clients.abandoned == s.clients.abandoned
  {
    hide Reachable, D.DaemonStep, D.Accepting, D.NobodyStarting;
    s' := DaemonActs(s, D.Advance(d, false));
  }

  lemma DaemonBinds(s: State, d: D.DaemonId, ino: D.Inode) returns (s': State)
    requires Reachable(s) && d in s.daemons.daemons && s.daemons.daemons[d].pc == D.BindPath
    requires s.daemons.path == None && !D.LiveAt(s.daemons, ino) && D.Pending(s.daemons, ino) == {}
    ensures Reachable(s') && s'.daemons.path == Some(D.Node(ino, true, Some(d), {}))
    ensures s'.daemons.daemons == s.daemons.daemons[d := D.Daemon(D.Serving, ino)]
    ensures s'.clients.failedWaits == s.clients.failedWaits && s'.clients.abandoned == s.clients.abandoned
  {
    hide Reachable, D.LiveAt, D.Pending, D.Accepting, D.NobodyStarting;
    s' := DaemonActs(s, D.Bind(d, ino, true));
  }

  /** Both conditions of `EveryWaitEnded` are needed: one wait that gives up, or one waiter killed, and two serve. */
  lemma LostWaitMakesTwo(killed: bool)
    ensures exists s: State ::
              && Reachable(s) && !D.OneServes(s.daemons)
              && s.clients.failedWaits == (if killed then 0 else 1) && s.clients.abandoned == (if killed then 1 else 0)
  {
    hide Reachable, D.OneServes;
    var s := TwoStarters(killed);
    s := DaemonMovesOn(s, 0);
    s := DaemonMovesOn(s, 0);
    s := DaemonBinds(s, 0, 7);
    s := DaemonMovesOn(s, 1);
    s := DaemonMovesOn(s, 1);
    s := DaemonMovesOn(s, 1);
    s := DaemonBinds(s, 1, 8);
    D.BothIsNotOne(s.daemons, 0, 1);
  }
}
