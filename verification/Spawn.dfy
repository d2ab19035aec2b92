/**
  Any number of client processes making sure that a daemon runs, as a transition system.

  A client probes the socket, takes the spawn lock, probes again, launches the daemon, and keeps the lock
  until the socket answers or it gives up. The environment decides when the socket is reachable, and a
  client can be killed at any step, which releases its lock. Every call of EnsureDaemon, also one made by
  a client's retry, is a client of its own here.
*/
module Spawn {
  import opened Wrappers

  type ClientId = nat

  datatype Reach = Answering | Absent | Hostile

  datatype Pc =
    | FirstProbe
    | MakeDir
    | WantLock
    | Recheck
    | ReadConfig
    | Launching
    | Waiting
    | Releasing(ok: bool)
    | Returned(success: bool)

  /**
    `drops` counts how often the socket, having answered, was found absent again; `answered` says that it has
    answered since the last time. `failedWaits` counts the waits that gave up, `abandoned` the clients killed
    while waiting. All are history.
  */
  datatype State = State(
    clients: map<ClientId, Pc>, lock: Option<ClientId>, reach: Reach, answered: bool,
    launches: nat, drops: nat, failedWaits: nat, abandoned: nat)

  datatype Action =
    | Call(c: ClientId)
    | Probe(c: ClientId, seen: Reach)
    | Advance(c: ClientId, ok: bool)
    | Kill(c: ClientId)
    | Become(now: Reach)

  predicate Init(s: State) {
    s.clients == map[] && s.lock == None && (s.answered <==> s.reach == Answering) && s.launches == 0 && s.drops == 0
        && s.failedWaits == 0 && s.abandoned == 0
  }

  /** A probe that reports "answering" or "absent" is right; any failure it cannot explain is "hostile". */
  predicate CanSee(s: State, seen: Reach) {
    seen == Hostile || seen == s.reach
  }

  function Goto(s: State, c: ClientId, pc: Pc): State {
    s.(clients := s.clients[c := pc])
  }

  function ProbeStep(s: State, c: ClientId, seen: Reach): Option<State>
    requires c in s.clients
  {
    if !CanSee(s, seen) then None
    else
      match s.clients[c]
      case FirstProbe =>
        Some(Goto(s, c, match seen case Answering => Returned(true) case Absent => MakeDir
            case Hostile => Returned(false)))
      case Recheck =>
        Some(Goto(s, c, match seen case Answering => Releasing(true) case Absent => ReadConfig
            case Hostile => Releasing(false)))
      case Waiting => Some(if seen == Answering then Goto(s, c, Releasing(true)) else s)
      case _ => None
  }

  /** `ok` false: the operation failed; for the lock and the wait, the time was up. */
  function ClientStep(s: State, c: ClientId, ok: bool): Option<State>
    requires c in s.clients
  {
    match s.clients[c]
    case MakeDir => Some(Goto(s, c, if ok then WantLock else Returned(false)))
    case WantLock =>
      if !ok then Some(Goto(s, c, Returned(false)))
      else if s.lock != None then None
      else Some(Goto(s.(lock := Some(c)), c, Recheck))
    case ReadConfig => Some(Goto(s, c, if ok then Launching else Releasing(false)))
    case Launching => Some(if ok then Goto(s.(launches := s.launches + 1), c, Waiting)
        else Goto(s, c, Releasing(false)))
    case Waiting => if ok then None else Some(Goto(s.(failedWaits := s.failedWaits + 1), c, Releasing(false)))
    case Releasing(done) => Some(Goto(s.(lock := None), c, Returned(done)))
    case _ => None
  }

  function Killed(s: State, c: ClientId): State
    requires c in s.clients
  {
    s.(clients := s.clients - {c},
       lock := if s.lock == Some(c) then None else s.lock,
       abandoned := if s.clients[c] == Waiting then s.abandoned + 1 else s.abandoned)
  }

  function Step(s: State, a: Action): Option<State> {
    match a
    case Call(c) => if c in s.clients then None else Some(Goto(s, c, FirstProbe))
    case Probe(c, seen) => if c in s.clients then ProbeStep(s, c, seen) else None
    case Advance(c, ok) => if c in s.clients then ClientStep(s, c, ok) else None
    case Kill(c) => if c in s.clients then Some(Killed(s, c)) else None
    case Become(now) =>
      match now {
        case Answering => Some(s.(reach := now, answered := true))
        case Absent => Some(s.(reach := now, answered := false, drops := if s.answered then s.drops + 1 else s.drops))
        case Hostile => Some(s.(reach := now))
      }
  }

  function Run(s: State, acts: seq<Action>): Option<State> {
    if acts == [] then Some(s)
    else
      var r := Run(s, acts[..|acts| - 1]);
      if r == None then None else Step(r.value, acts[|acts| - 1])
  }

  ghost predicate Reachable(s: State) {
    exists s0: State, acts: seq<Action> :: Init(s0) && Run(s0, acts) == Some(s)
  }

  // ----- the inductive invariant -----

  predicate Holding(pc: Pc) {
    pc == Recheck || pc == ReadConfig || pc == Launching || pc == Waiting || pc.Releasing?
  }

  /** The launches the events so far have paid for, beyond those made. */
  function Credit(s: State): int {
    1 + s.drops + s.failedWaits + s.abandoned - s.launches
  }

  predicate LockOk(s: State) {
    && (s.lock.Some? ==> s.lock.value in s.clients)
    && forall c :: c in s.clients ==> (Holding(s.clients[c]) <==> s.lock == Some(c))
  }

  /** A client is past a recheck that found nobody: its launch is paid for. */
  predicate AboutToLaunch(s: State) {
    exists c :: c in s.clients && (s.clients[c] == ReadConfig || s.clients[c] == Launching)
  }

  predicate SomeoneWaits(s: State) {
    exists c :: c in s.clients && s.clients[c] == Waiting
  }

  predicate CreditOk(s: State) {
    && Credit(s) >= 0
    && (AboutToLaunch(s) ==> Credit(s) >= 1)
    && (!s.answered && !SomeoneWaits(s) ==> Credit(s) >= 1)
    && (s.reach == Answering ==> s.answered) && (s.reach == Absent ==> !s.answered)
  }

  predicate Inv(s: State) {
    LockOk(s) && CreditOk(s)
  }

  /** Only the lock holder can be waiting or about to launch. */
  lemma HolderDecides(s: State, c: ClientId)
    requires LockOk(s) && s.lock == Some(c)
    ensures SomeoneWaits(s) <==> s.clients[c] == Waiting
    ensures AboutToLaunch(s) <==> s.clients[c] == ReadConfig || s.clients[c] == Launching
  {
  }

  lemma NobodyDecides(s: State)
    requires LockOk(s) && s.lock == None
    ensures !SomeoneWaits(s) && !AboutToLaunch(s)
  {
  }

  lemma Decided(s: State)
    requires LockOk(s)
    ensures s.lock.Some? ==> (SomeoneWaits(s) <==> s.clients[s.lock.value] == Waiting)
    ensures s.lock.Some? ==> (AboutToLaunch(s) <==>
              s.clients[s.lock.value] == ReadConfig || s.clients[s.lock.value] == Launching)
    ensures s.lock == None ==> !SomeoneWaits(s) && !AboutToLaunch(s)
  {
    hide LockOk, SomeoneWaits, AboutToLaunch;
    if s.lock.Some? {
      HolderDecides(s, s.lock.value);
    } else {
      NobodyDecides(s);
    }
  }

  lemma StepKeepsLock(s: State, a: Action, s': State)
    requires LockOk(s) && Step(s, a) == Some(s')
    ensures LockOk(s')
  {
  }

  lemma ProbeKeepsCredit(s: State, c: ClientId, seen: Reach, s': State)
    requires Inv(s) && LockOk(s') && c in s.clients && ProbeStep(s, c, seen) == Some(s')
    ensures CreditOk(s')
  {
    Decided(s);
    Decided(s');
    hide LockOk, SomeoneWaits, AboutToLaunch;
  }

  lemma ClientKeepsCredit(s: State, c: ClientId, ok: bool, s': State)
    requires Inv(s) && LockOk(s') && c in s.clients && ClientStep(s, c, ok) == Some(s')
    ensures CreditOk(s')
  {
    Decided(s);
    Decided(s');
    assert Holding(s.clients[c]) ==> s.lock == Some(c);
    hide LockOk, SomeoneWaits, AboutToLaunch;
  }

  lemma KillKeepsCredit(s: State, c: ClientId)
    requires Inv(s) && c in s.clients && LockOk(Killed(s, c))
    ensures CreditOk(Killed(s, c))
  {
    Decided(s);
    Decided(Killed(s, c));
    assert Holding(s.clients[c]) ==> s.lock == Some(c);
    hide LockOk, SomeoneWaits, AboutToLaunch;
  }

  lemma StepKeepsInv(s: State, a: Action, s': State)
    requires Inv(s) && Step(s, a) == Some(s')
    ensures Inv(s')
  {
    StepKeepsLock(s, a, s');
    hide ProbeStep, ClientStep, Killed;
    match a
    case Probe(c, seen) => ProbeKeepsCredit(s, c, seen, s');
    case Advance(c, ok) => ClientKeepsCredit(s, c, ok, s');
    case Kill(c) => KillKeepsCredit(s, c);
    case _ =>
      Decided(s);
      Decided(s');
      hide LockOk, SomeoneWaits, AboutToLaunch;
  }

  lemma {:induction false} RunKeepsInv(s0: State, acts: seq<Action>, s: State)
    requires Init(s0) && Run(s0, acts) == Some(s)
    ensures Inv(s)
  {
    hide Step;
    if acts != [] {
      var front := acts[..|acts| - 1];
      RunKeepsInv(s0, front, Run(s0, front).value);
      StepKeepsInv(Run(s0, front).value, acts[|acts| - 1], s);
    }
  }

  lemma ReachableInv(s: State)
    requires Reachable(s)
    ensures Inv(s)
  {
    hide Run, Inv;
    var s0: State, acts: seq<Action> :| Init(s0) && Run(s0, acts) == Some(s);
    RunKeepsInv(s0, acts, s);
  }

  // ----- the theorems -----

  /**
    However many clients race, a daemon is launched at most once, plus once for each time the socket
    went from answering to absent, each wait that gave up and each client killed while it waited.
  */
  lemma LaunchBound(s: State)
    requires Reachable(s)
    ensures s.launches <= 1 + s.drops + s.failedWaits + s.abandoned
  {
    hide Reachable, LockOk;
    ReachableInv(s);
  }

  /** While one client waits for its daemon to answer, no other client launches. */
  lemma NoLaunchWhileWaiting(s: State, c: ClientId, s': State, w: ClientId)
    requires Reachable(s) && Step(s, Advance(c, true)) == Some(s') && s'.launches > s.launches
    requires w in s.clients
    ensures s.clients[w] != Waiting && s.lock == Some(c)
  {
    hide Reachable, CreditOk;
    ReachableInv(s);
  }

  // ----- what a client's answer rests on -----

  /** In this call the client's probe at `pc` has seen this. */
  predicate Saw(s0: State, acts: seq<Action>, c: ClientId, pc: Pc, seen: Reach) {
    if acts == [] then false
    else
      var front, a := acts[..|acts| - 1], acts[|acts| - 1];
      var r := Run(s0, front);
      && r.Some? && a != Call(c)
      && (Saw(s0, front, c, pc, seen) || (a == Probe(c, seen) && c in r.value.clients && r.value.clients[c] == pc))
  }

  /** In this call an operation of the client has failed, or its time was up. */
  predicate Failed(s0: State, acts: seq<Action>, c: ClientId) {
    if acts == [] then false
    else
      var front, a := acts[..|acts| - 1], acts[|acts| - 1];
      a != Call(c) && (a == Advance(c, false) || Failed(s0, front, c))
  }

  /** What a client that has come this far has seen. */
  predicate Warranted(s0: State, acts: seq<Action>, c: ClientId, pc: Pc) {
    match pc
    case FirstProbe => true
    case MakeDir => Saw(s0, acts, c, FirstProbe, Absent)
    case WantLock => Saw(s0, acts, c, FirstProbe, Absent)
    case Recheck => Saw(s0, acts, c, FirstProbe, Absent)
    case ReadConfig => AbsentTwice(s0, acts, c)
    case Launching => AbsentTwice(s0, acts, c)
    case Waiting => AbsentTwice(s0, acts, c)
    case Releasing(ok) => if ok then SawAnswer(s0, acts, c) else SawTrouble(s0, acts, c)
    case Returned(ok) => if ok then SawAnswer(s0, acts, c) else SawTrouble(s0, acts, c)
  }

  predicate AbsentTwice(s0: State, acts: seq<Action>, c: ClientId) {
    Saw(s0, acts, c, FirstProbe, Absent) && Saw(s0, acts, c, Recheck, Absent)
  }

  predicate SawAnswer(s0: State, acts: seq<Action>, c: ClientId) {
    || Saw(s0, acts, c, FirstProbe, Answering) || Saw(s0, acts, c, Recheck, Answering)
    || Saw(s0, acts, c, Waiting, Answering)
  }

  predicate SawTrouble(s0: State, acts: seq<Action>, c: ClientId) {
    || Saw(s0, acts, c, FirstProbe, Hostile) || Saw(s0, acts, c, Recheck, Hostile) || Failed(s0, acts, c)
  }

  /** Another step than the client's own keeps what it has seen. */
  lemma StillWarranted(s0: State, acts: seq<Action>, a: Action, c: ClientId, pc: Pc)
    requires Run(s0, acts).Some? && a != Call(c) && Warranted(s0, acts, c, pc)
    ensures Warranted(s0, acts + [a], c, pc)
  {
    SawStays(s0, acts, a, c);
    hide Saw, Failed;
  }

  lemma SawStays(s0: State, acts: seq<Action>, a: Action, c: ClientId)
    requires Run(s0, acts).Some? && a != Call(c)
    ensures forall pc, seen :: Saw(s0, acts, c, pc, seen) ==> Saw(s0, acts + [a], c, pc, seen)
    ensures Failed(s0, acts, c) ==> Failed(s0, acts + [a], c)
  {
    assert (acts + [a])[..|acts|] == acts;
  }

  lemma OwnStepSees(s0: State, acts: seq<Action>, s: State, a: Action, c: ClientId)
    requires Run(s0, acts) == Some(s) && c in s.clients
    ensures a.Probe? && a.c == c ==> Saw(s0, acts + [a], c, s.clients[c], a.seen)
    ensures a == Advance(c, false) ==> Failed(s0, acts + [a], c)
  {
    assert (acts + [a])[..|acts|] == acts;
  }

  lemma OwnStepWarranted(s0: State, acts: seq<Action>, s: State, a: Action, s': State, c: ClientId)
    requires Run(s0, acts) == Some(s) && (a.Probe? || a.Advance?) && a.c == c && Step(s, a) == Some(s')
    requires c in s.clients && Warranted(s0, acts, c, s.clients[c])
    ensures c in s'.clients && Warranted(s0, acts + [a], c, s'.clients[c])
  {
    SawStays(s0, acts, a, c);
    OwnStepSees(s0, acts, s, a, c);
    hide Saw, Failed;
  }

  lemma OthersStay(s: State, a: Action, s': State, c: ClientId)
    requires Step(s, a) == Some(s') && c in s'.clients && a != Call(c) && !((a.Probe? || a.Advance?) && a.c == c)
    ensures c in s.clients && s'.clients[c] == s.clients[c]
  {
  }

  /**
    In every run: a client goes for the lock only after it has found the socket absent, launches only after it
    has found it absent again under the lock, succeeds only once it has seen an answer, and fails only if it
    saw something it could not explain or an operation failed.
  */
  lemma {:induction false} AnswersAreSeen(s0: State, acts: seq<Action>, s: State, c: ClientId)
    requires Init(s0) && Run(s0, acts) == Some(s) && c in s.clients
    ensures Warranted(s0, acts, c, s.clients[c])
  {
    hide Saw, Failed;
    var front, a := acts[..|acts| - 1], acts[|acts| - 1];
    var before := Run(s0, front).value;
    assert front + [a] == acts;
    if a == Call(c) {
      assert s.clients[c] == FirstProbe;
    } else if (a.Probe? || a.Advance?) && a.c == c {
      AnswersAreSeen(s0, front, before, c);
      OwnStepWarranted(s0, front, before, a, s, c);
    } else {
      OthersStay(before, a, s, c);
      AnswersAreSeen(s0, front, before, c);
      StillWarranted(s0, front, a, c, before.clients[c]);
    }
  }

  /** An operation that fails, or whose time is up, ends the call in an error, and launches nothing. */
  lemma FailureEndsCall(s: State, c: ClientId, s': State)
    requires Step(s, Advance(c, false)) == Some(s') && c in s.clients && !s.clients[c].Releasing?
    ensures s'.launches == s.launches && c in s'.clients
    ensures s'.clients[c] == if Holding(s.clients[c]) then Releasing(false) else Returned(false)
  {
  }

  // ----- the bound is reached -----

  lemma Extend(s: State, a: Action, s': State)
    requires Reachable(s) && Step(s, a) == Some(s')
    ensures Reachable(s')
  {
    hide Init, Step;
    var s0: State, acts: seq<Action> :| Init(s0) && Run(s0, acts) == Some(s);
    assert (acts + [a])[..|acts|] == acts;
    assert Run(s0, acts + [a]) == Some(s');
  }

  lemma Act(s: State, a: Action) returns (s': State)
    requires Reachable(s) && Step(s, a).Some?
    ensures Reachable(s') && Step(s, a) == Some(s')
  {
    hide Reachable, Step;
    s' := Step(s, a).value;
    Extend(s, a, s');
  }

  lemma GetLock(s: State, c: ClientId) returns (s': State)
    requires Reachable(s) && s.lock == None && s.reach == Absent && c !in s.clients
    ensures Reachable(s') && s' == Goto(s.(lock := Some(c)), c, Recheck)
  {
    hide Reachable;
    s' := Act(s, Call(c));
    s' := Act(s', Probe(c, Absent));
    s' := Act(s', Advance(c, true));
    s' := Act(s', Advance(c, true));
    assert s'.clients == s.clients[c := Recheck];
  }

  /** One more client, finding the socket absent, launches a daemon that comes up. */
  lemma LaunchOnce(s: State, c: ClientId) returns (s': State)
    requires Reachable(s) && s.lock == None && s.reach == Absent && c !in s.clients
    ensures Reachable(s') && s' == Goto(s.(reach := Answering, answered := true, launches := s.launches + 1), c,
              Returned(true))
  {
    hide Reachable;
    s' := GetLock(s, c);
    s' := Act(s', Probe(c, Absent));
    s' := Act(s', Advance(c, true));
    s' := Act(s', Advance(c, true));
    s' := Act(s', Become(Answering));
    s' := Act(s', Probe(c, Answering));
    s' := Act(s', Advance(c, true));
    assert s'.clients == s.clients[c := Returned(true)];
  }

  /** One more client launches a daemon and then waits. */
  lemma LaunchAndWait(s: State, c: ClientId) returns (s': State)
    requires Reachable(s) && s.lock == None && s.reach == Absent && c !in s.clients
    ensures Reachable(s') && s' == Goto(s.(lock := Some(c), launches := s.launches + 1), c, Waiting)
  {
    hide Reachable;
    s' := GetLock(s, c);
    s' := Act(s', Probe(c, Absent));
    s' := Act(s', Advance(c, true));
    s' := Act(s', Advance(c, true));
    assert s'.clients == s.clients[c := Waiting];
  }

  /** With nobody answering, `failed` waits give up and `killed` clients die waiting; each has launched a daemon. */
  lemma {:induction false} LaunchesInVain(failed: nat, killed: nat) returns (s: State)
    ensures Reachable(s) && s.lock == None && s.reach == Absent
    ensures s.drops == 0 && s.failedWaits == failed && s.abandoned == killed && s.launches == failed + killed
    ensures forall c :: c in s.clients ==> c < failed
    decreases failed + killed
  {
    hide Reachable;
    if killed > 0 {
      s := LaunchesInVain(failed, killed - 1);
      s := LaunchAndWait(s, failed);
      s := Act(s, Kill(failed));
    } else if failed > 0 {
      s := LaunchesInVain(failed - 1, 0);
      s := LaunchAndWait(s, failed - 1);
      s := Act(s, Advance(failed - 1, false));
      s := Act(s, Advance(failed - 1, true));
    } else {
      s := State(map[], None, Absent, false, 0, 0, 0, 0);
      Start(s);
    }
  }

  /** Every term of the bound is needed: whatever the three numbers are, some run has them and meets the bound. */
  lemma {:induction false} BoundIsReached(drops: nat, failed: nat, killed: nat) returns (s: State)
    ensures Reachable(s) && s.lock == None && s.reach == Answering
    ensures s.drops == drops && s.failedWaits == failed && s.abandoned == killed
    ensures s.launches == 1 + drops + failed + killed
    ensures forall c :: c in s.clients ==> c <= failed + drops
  {
    hide Reachable;
    if drops == 0 {
      s := LaunchesInVain(failed, killed);
      s := LaunchOnce(s, failed);
    } else {
      s := BoundIsReached(drops - 1, failed, killed);
      ReachableInv(s);
      s := Act(s, Become(Absent));
      s := LaunchOnce(s, failed + drops);
    }
  }

  lemma Start(s: State)
    requires Init(s)
    ensures Reachable(s)
  {
    assert Run(s, []) == Some(s);
  }
}
