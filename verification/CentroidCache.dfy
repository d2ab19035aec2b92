/**
  Concurrent pushes of centroid sets, the disk cache, and process crashes, as a transition system.

  One step is one lock operation, one store, or one file operation of Persist, each of which may fail;
  a crash can come between any two of them, and a boot may follow. A crash is of the process: what was
  written stays in the file system. Embed requests read the set once and answer from what they read.
*/
module CentroidCache {
  import opened Wrappers
  import opened Route
  import opened Centroids

  type PushId = nat
  type RpcId = nat
  type TempId = nat

  /** A file under the cache directory: an encoding cut short, or a whole set. */
  datatype FileContent = Torn | Whole(cs: CentroidSet)

  datatype PushPc =
    | WantLock
    | StoreMemory
    | MakeDir
    | CreateTemp
    | EncodeTo(temp: TempId)
    | CloseTemp(temp: TempId)
    | RenameTemp(temp: TempId)
    | RemoveTemp(temp: TempId)
    | Unlock
    | Installed

  datatype Push = Push(cs: CentroidSet, pc: PushPc)

  /** Where a routed request is: with the backend, or filling in one of its answers field by field. */
  datatype RpcPc = AskingBackend | Filling(i: nat, field: Field) | Finished

  datatype Field = Vector | Cluster | Version

  /** A routed request: the set it read at its start, the backend's vectors, and the answers so far. */
  datatype Rpc = Rpc(snapshot: CentroidSet, vectors: seq<seq<Word>>, answers: seq<Embedded>, pc: RpcPc)

  /** History: one push that took installMu, and whether its rename happened. */
  datatype Install = Install(cs: CentroidSet, renamed: bool)

  /**
    `cache` is the file Load reads, `temps` the temporary files. `initial` is what the cache held in the
    beginning, `installs` the pushes of all boots in the order they took installMu, `bornAt` how many there
    were at the last boot, `restored` what that boot loaded; all four are history.
  */
  datatype State = State(
    up: bool, mem: Option<CentroidSet>, lock: Option<PushId>, pushes: map<PushId, Push>, rpcs: map<RpcId, Rpc>,
    cache: Option<FileContent>, temps: map<TempId, FileContent>,
    initial: Option<FileContent>, installs: seq<Install>, bornAt: nat, restored: Option<CentroidSet>)

  datatype Action =
    | Receive(push: PushId, frames: seq<Frame>)
    | Advance(pushing: PushId, ok: bool, unused: TempId)
    | Snapshot(rpc: RpcId)
    | Embed(asking: RpcId, vectors: seq<seq<Word>>)
    | Fill(filling: RpcId)
    | Crash
    | Boot

  predicate Init(s: State) {
    && !s.up && s.mem == None && s.lock == None && s.pushes == map[] && s.rpcs == map[]
    && s.cache == s.initial && s.installs == [] && s.bornAt == 0 && s.restored == None
  }

  /** Load followed by LoadCentroids. */
  function Restore(sha: Bytes -> Bytes, file: Option<FileContent>): Option<CentroidSet> {
    if file.Some? && file.value.Whole? && Verified(sha, file.value.cs) && Valid(file.value.cs, VECTOR_DIM)
    then Some(file.value.cs) else None
  }

  function Goto(s: State, p: PushId, pc: PushPc): State
    requires p in s.pushes
  {
    s.(pushes := s.pushes[p := s.pushes[p].(pc := pc)])
  }

  function MarkRenamed(installs: seq<Install>): seq<Install>
    requires installs != []
  {
    installs[|installs| - 1 := installs[|installs| - 1].(renamed := true)]
  }

  /** Persist: a temporary file is written, closed and renamed over the cache, and removed on the way out. */
  function PersistStep(s: State, p: PushId, ok: bool, unused: TempId): Option<State>
    requires p in s.pushes
  {
    match s.pushes[p].pc
    case MakeDir => Some(Goto(s, p, if ok then CreateTemp else Unlock))
    case CreateTemp =>
      if !ok then Some(Goto(s, p, Unlock))
      else if unused in s.temps then None
      else Some(Goto(s.(temps := s.temps[unused := Torn]), p, EncodeTo(unused)))
    case EncodeTo(f) =>
      if !ok then Some(Goto(s, p, RemoveTemp(f)))
      else Some(Goto(s.(temps := s.temps[f := Whole(s.pushes[p].cs)]), p, CloseTemp(f)))
    case CloseTemp(f) => Some(Goto(s, p, if ok then RenameTemp(f) else RemoveTemp(f)))
    case RenameTemp(f) =>
      if !ok || f !in s.temps || s.installs == [] then Some(Goto(s, p, RemoveTemp(f)))
      else
        Some(Goto(s.(cache := Some(s.temps[f]), temps := s.temps - {f}, installs := MarkRenamed(s.installs)), p,
            RemoveTemp(f)))
    case RemoveTemp(f) => Some(Goto(if ok then s.(temps := s.temps - {f}) else s, p, Unlock))
    case _ => None
  }

  /** SetCentroids, once the set is checked: memory, then Persist, whose failure is only logged. */
  function PushStep(s: State, p: PushId, ok: bool, unused: TempId): Option<State>
    requires p in s.pushes
  {
    var cs := s.pushes[p].cs;
    match s.pushes[p].pc
    case WantLock =>
      if s.lock != None then None
      else Some(Goto(s.(lock := Some(p), installs := s.installs + [Install(cs, false)]), p, StoreMemory))
    case StoreMemory => Some(Goto(s.(mem := Some(cs)), p, MakeDir))
    case Unlock => Some(Goto(s.(lock := None), p, Installed))
    case _ => PersistStep(s, p, ok, unused)
  }

  /** The next field of the next answer: the vector, then the cluster the snapshot gives it, then the version. */
  function FillStep(mulAdd: MulAdd, rpc: Rpc): Option<Rpc> {
    match rpc.pc
    case Filling(i, Vector) =>
      if i >= |rpc.vectors| then Some(rpc.(pc := Finished))
      else Some(rpc.(answers := rpc.answers + [Embedded(rpc.vectors[i], 0, "")], pc := Filling(i, Cluster)))
    case Filling(i, Cluster) =>
      if i >= |rpc.answers| then None
      else
        var id := AssignedId(mulAdd, rpc.snapshot, rpc.answers[i].vector);
        Some(rpc.(answers := rpc.answers[i := rpc.answers[i].(cluster := id)], pc := Filling(i, Version)))
    case Filling(i, Version) =>
      if i >= |rpc.answers| then None
      else
        Some(rpc.(answers := rpc.answers[i := rpc.answers[i].(setVersion := rpc.snapshot.version)],
            pc := Filling(i + 1, Vector)))
    case _ => None
  }

  function Step(sha: Bytes -> Bytes, mulAdd: MulAdd, s: State, a: Action): Option<State> {
    match a
    case Receive(p, frames) =>
      if !s.up || p in s.pushes || !Accepted(sha, frames, Eof) then None
      else Some(s.(pushes := s.pushes[p := Push(Assembled(frames), WantLock)]))
    case Advance(p, ok, unused) => if p in s.pushes then PushStep(s, p, ok, unused) else None
    case Snapshot(r) =>
      if s.mem == None || r in s.rpcs then None
      else Some(s.(rpcs := s.rpcs[r := Rpc(s.mem.value, [], [], AskingBackend)]))
    case Embed(r, vectors) =>
      if r !in s.rpcs || s.rpcs[r].pc != AskingBackend then None
      else Some(s.(rpcs := s.rpcs[r := s.rpcs[r].(vectors := vectors, pc := Filling(0, Vector))]))
    case Fill(r) =>
      if r !in s.rpcs then None
      else
        var rpc := FillStep(mulAdd, s.rpcs[r]);
        if rpc == None then None else Some(s.(rpcs := s.rpcs[r := rpc.value]))
    case Crash =>
      if !s.up then None
      else Some(s.(up := false, mem := None, lock := None, pushes := map[], rpcs := map[]))
    case Boot =>
      if s.up then None
      else
        var found := Restore(sha, s.cache);
        Some(s.(up := true, mem := found, bornAt := |s.installs|, restored := found))
  }

  function Run(sha: Bytes -> Bytes, mulAdd: MulAdd, s: State, acts: seq<Action>): Option<State> {
    if acts == [] then Some(s)
    else
      var r := Run(sha, mulAdd, s, acts[..|acts| - 1]);
      if r == None then None else Step(sha, mulAdd, r.value, acts[|acts| - 1])
  }

  ghost predicate Reachable(sha: Bytes -> Bytes, mulAdd: MulAdd, s: State) {
    exists s0: State, acts: seq<Action> :: Init(s0) && Run(sha, mulAdd, s0, acts) == Some(s)
  }

  // ----- what the history says the stores should hold -----

  /** The set of the last push whose rename happened; with none, what was there in the beginning. */
  function LastRenamed(initial: Option<FileContent>, installs: seq<Install>): Option<FileContent> {
    if installs == [] then initial
    else if installs[|installs| - 1].renamed then Some(Whole(installs[|installs| - 1].cs))
    else LastRenamed(initial, installs[..|installs| - 1])
  }

  /** The first `n` installs are in: the last of this boot, or what the boot restored. */
  function LastStored(s: State, n: nat): Option<CentroidSet>
    requires n <= |s.installs|
  {
    if n > s.bornAt then Some(s.installs[n - 1].cs) else s.restored
  }

  predicate Passed(sha: Bytes -> Bytes, cs: CentroidSet) {
    Verified(sha, cs) && Valid(cs, VECTOR_DIM)
  }

  predicate InstalledSinceBoot(s: State, cs: CentroidSet) {
    s.restored == Some(cs) || exists i :: s.bornAt <= i < |s.installs| && s.installs[i].cs == cs
  }

  // ----- the inductive invariant -----

  predicate Holding(pc: PushPc) {
    !pc.WantLock? && !pc.Installed?
  }

  function TempOf(pc: PushPc): Option<TempId> {
    match pc
    case EncodeTo(f) => Some(f)
    case CloseTemp(f) => Some(f)
    case RenameTemp(f) => Some(f)
    case _ => None
  }

  predicate LockOk(s: State) {
    && (s.lock.Some? ==> s.lock.value in s.pushes)
    && (forall p :: p in s.pushes ==> (Holding(s.pushes[p].pc) <==> s.lock == Some(p)))
    && (!s.up ==> s.pushes == map[] && s.rpcs == map[] && s.mem == None)
  }

  /** The push holding the lock is the last install; its temporary file is whole once encoded. */
  predicate HolderOk(s: State) {
    s.lock.Some? && s.lock.value in s.pushes ==>
      var push := s.pushes[s.lock.value];
      && |s.installs| > s.bornAt && s.installs[|s.installs| - 1].cs == push.cs
      && (TempOf(push.pc).Some? ==> TempOf(push.pc).value in s.temps)
      && (push.pc.CloseTemp? || push.pc.RenameTemp? ==> s.temps[push.pc.temp] == Whole(push.cs))
  }

  /** How many installs memory reflects: the push that has just taken the lock has not stored yet. */
  function StoredCount(s: State): nat {
    if s.installs != [] && s.lock.Some? && s.lock.value in s.pushes && s.pushes[s.lock.value].pc.StoreMemory?
    then |s.installs| - 1 else |s.installs|
  }

  predicate StoresOk(s: State) {
    && s.bornAt <= |s.installs|
    && (s.up ==> s.bornAt <= StoredCount(s) && s.mem == LastStored(s, StoredCount(s)))
    && s.cache == LastRenamed(s.initial, s.installs)
  }

  predicate SetsOk(sha: Bytes -> Bytes, s: State) {
    && (forall p :: p in s.pushes ==> Passed(sha, s.pushes[p].cs))
    && (forall i :: 0 <= i < |s.installs| ==> Passed(sha, s.installs[i].cs))
    && (s.restored.Some? ==> Passed(sha, s.restored.value))
  }

  ghost predicate RpcsOk(mulAdd: MulAdd, s: State) {
    forall r :: r in s.rpcs ==>
      && InstalledSinceBoot(s, s.rpcs[r].snapshot)
      && AllAnswered(mulAdd, s.rpcs[r])
  }

  /** Every answer but the one being filled in answers its vector under the snapshot; that one is right so far. */
  ghost predicate AllAnswered(mulAdd: MulAdd, rpc: Rpc) {
    match rpc.pc
    case AskingBackend => rpc.answers == []
    case Filling(i, Vector) => i <= |rpc.vectors| && AnsweredUpTo(mulAdd, rpc, i) && |rpc.answers| == i
    case Filling(i, Cluster) =>
      i < |rpc.vectors| && AnsweredUpTo(mulAdd, rpc, i) && |rpc.answers| == i + 1
          && rpc.answers[i].vector == rpc.vectors[i]
    case Filling(i, Version) =>
      && i < |rpc.vectors| && AnsweredUpTo(mulAdd, rpc, i) && |rpc.answers| == i + 1
          && rpc.answers[i].vector == rpc.vectors[i]
      && AssignedTo(mulAdd, rpc.snapshot, rpc.vectors[i], rpc.answers[i].cluster)
    case Finished => AnsweredUpTo(mulAdd, rpc, |rpc.vectors|) && |rpc.answers| == |rpc.vectors|
  }

  ghost predicate AnsweredUpTo(mulAdd: MulAdd, rpc: Rpc, n: nat) {
    n <= |rpc.vectors| && n <= |rpc.answers|
    && forall i :: 0 <= i < n ==> Answers(mulAdd, Some(rpc.snapshot), rpc.vectors[i], rpc.answers[i])
  }

  ghost predicate Inv(sha: Bytes -> Bytes, mulAdd: MulAdd, s: State) {
    LockOk(s) && HolderOk(s) && StoresOk(s) && SetsOk(sha, s) && RpcsOk(mulAdd, s)
  }

  // ----- every step keeps it -----

  lemma LastRenamedMarked(initial: Option<FileContent>, installs: seq<Install>)
    requires installs != []
    ensures LastRenamed(initial, MarkRenamed(installs)) == Some(Whole(installs[|installs| - 1].cs))
  {
  }

  lemma LastRenamedAppend(initial: Option<FileContent>, installs: seq<Install>, cs: CentroidSet)
    ensures LastRenamed(initial, installs + [Install(cs, false)]) == LastRenamed(initial, installs)
  {
    assert (installs + [Install(cs, false)])[..|installs|] == installs;
  }

  /** Installs only grow, so a set installed since the boot stays one. */
  lemma StillInstalled(s: State, s': State, cs: CentroidSet)
    requires s.bornAt == s'.bornAt && s.restored == s'.restored && |s.installs| <= |s'.installs|
    requires forall i :: 0 <= i < |s.installs| ==> s'.installs[i].cs == s.installs[i].cs
    requires InstalledSinceBoot(s, cs)
    ensures InstalledSinceBoot(s', cs)
  {
    if s.restored != Some(cs) {
      var i :| s.bornAt <= i < |s.installs| && s.installs[i].cs == cs;
      assert s'.installs[i].cs == cs;
    }
  }

  predicate Persisting(pc: PushPc) {
    !pc.WantLock? && !pc.StoreMemory? && !pc.Unlock?
  }

  lemma PersistKeepsLock(s: State, p: PushId, ok: bool, unused: TempId, s': State)
    requires LockOk(s) && p in s.pushes && PersistStep(s, p, ok, unused) == Some(s')
    ensures LockOk(s')
  {
    hide MarkRenamed;
  }

  lemma PushKeepsLock(s: State, p: PushId, ok: bool, unused: TempId, s': State)
    requires LockOk(s) && p in s.pushes && PushStep(s, p, ok, unused) == Some(s')
    ensures LockOk(s')
  {
    hide PersistStep;
    if Persisting(s.pushes[p].pc) {
      PersistKeepsLock(s, p, ok, unused, s');
    }
  }

  lemma PersistKeepsHolder(s: State, p: PushId, ok: bool, unused: TempId, s': State)
    requires LockOk(s) && HolderOk(s) && StoresOk(s) && p in s.pushes && PersistStep(s, p, ok, unused) == Some(s')
    ensures HolderOk(s')
  {
    hide LastRenamed, LastStored, StoredCount;
  }

  lemma PushKeepsHolder(s: State, p: PushId, ok: bool, unused: TempId, s': State)
    requires LockOk(s) && HolderOk(s) && StoresOk(s) && p in s.pushes && PushStep(s, p, ok, unused) == Some(s')
    ensures HolderOk(s')
  {
    hide PersistStep, LastRenamed, LastStored;
    if Persisting(s.pushes[p].pc) {
      PersistKeepsHolder(s, p, ok, unused, s');
    }
  }

  lemma PersistKeepsStores(s: State, p: PushId, ok: bool, unused: TempId, s': State)
    requires LockOk(s) && HolderOk(s) && StoresOk(s) && p in s.pushes && PersistStep(s, p, ok, unused) == Some(s')
    ensures StoresOk(s')
  {
    hide LastRenamed;
    if s.installs != [] {
      LastRenamedMarked(s.initial, s.installs);
    }
  }

  lemma PushKeepsStores(s: State, p: PushId, ok: bool, unused: TempId, s': State)
    requires LockOk(s) && HolderOk(s) && StoresOk(s) && p in s.pushes && PushStep(s, p, ok, unused) == Some(s')
    ensures StoresOk(s')
  {
    hide PersistStep, LastRenamed;
    if Persisting(s.pushes[p].pc) {
      PersistKeepsStores(s, p, ok, unused, s');
    } else {
      LastRenamedAppend(s.initial, s.installs, s.pushes[p].cs);
    }
  }

  /** A step of one push changes its program counter, never its set. */
  lemma PersistKeepsSet(s: State, p: PushId, ok: bool, unused: TempId, s': State)
    requires p in s.pushes && PersistStep(s, p, ok, unused) == Some(s')
    ensures p in s'.pushes && s'.pushes == s.pushes[p := s.pushes[p].(pc := s'.pushes[p].pc)]
  {
    hide MarkRenamed;
    match s.pushes[p].pc
    case MakeDir =>
    case CreateTemp =>
    case EncodeTo(_) =>
    case CloseTemp(_) =>
    case RenameTemp(_) =>
    case RemoveTemp(_) =>
    case _ =>
  }

  lemma PushKeepsSet(s: State, p: PushId, ok: bool, unused: TempId, s': State)
    requires p in s.pushes && PushStep(s, p, ok, unused) == Some(s')
    ensures p in s'.pushes && s'.pushes == s.pushes[p := s.pushes[p].(pc := s'.pushes[p].pc)]
  {
    hide PersistStep;
    if Persisting(s.pushes[p].pc) {
      PersistKeepsSet(s, p, ok, unused, s');
    }
  }

  /** Its set is appended when it takes the lock; the sets already there stay. */
  lemma PersistAppendsNothing(s: State, p: PushId, ok: bool, unused: TempId, s': State)
    requires p in s.pushes && PersistStep(s, p, ok, unused) == Some(s')
    ensures |s'.installs| == |s.installs| && forall i :: 0 <= i < |s.installs| ==> s'.installs[i].cs == s.installs[i].cs
    ensures s'.rpcs == s.rpcs && s'.restored == s.restored && s'.bornAt == s.bornAt
  {
    match s.pushes[p].pc
    case RenameTemp(_) =>
    case _ =>
      hide MarkRenamed;
  }

  lemma PushAppends(s: State, p: PushId, ok: bool, unused: TempId, s': State)
    requires p in s.pushes && PushStep(s, p, ok, unused) == Some(s')
    ensures |s.installs| <= |s'.installs| <= |s.installs| + 1
    ensures forall i :: 0 <= i < |s.installs| ==> s'.installs[i].cs == s.installs[i].cs
    ensures |s'.installs| > |s.installs| ==> s'.installs[|s.installs|].cs == s.pushes[p].cs
    ensures s'.rpcs == s.rpcs && s'.restored == s.restored && s'.bornAt == s.bornAt
  {
    hide PersistStep;
    if Persisting(s.pushes[p].pc) {
      PersistAppendsNothing(s, p, ok, unused, s');
    }
  }

  lemma PushKeepsSets(sha: Bytes -> Bytes, mulAdd: MulAdd, s: State, p: PushId, ok: bool, unused: TempId, s': State)
    requires SetsOk(sha, s) && RpcsOk(mulAdd, s) && p in s.pushes && PushStep(s, p, ok, unused) == Some(s')
    ensures SetsOk(sha, s') && RpcsOk(mulAdd, s')
  {
    hide PushStep, Passed, InstalledSinceBoot, AllAnswered;
    PushKeepsSet(s, p, ok, unused, s');
    PushAppends(s, p, ok, unused, s');
    forall r | r in s'.rpcs
      ensures InstalledSinceBoot(s', s'.rpcs[r].snapshot)
    {
      StillInstalled(s, s', s.rpcs[r].snapshot);
    }
  }

  lemma FillKeeps(mulAdd: MulAdd, rpc: Rpc, rpc': Rpc)
    requires AllAnswered(mulAdd, rpc) && FillStep(mulAdd, rpc) == Some(rpc')
    ensures AllAnswered(mulAdd, rpc') && rpc'.snapshot == rpc.snapshot
  {
    hide AssignedTo, AssignedId;
    match rpc.pc
    case Filling(i, Cluster) => AssignedIdIsAssigned(mulAdd, rpc.snapshot, rpc.vectors[i]);
    case _ =>
  }

  lemma RpcKeepsInv(sha: Bytes -> Bytes, mulAdd: MulAdd, s: State, a: Action, s': State)
    requires Inv(sha, mulAdd, s) && (a.Snapshot? || a.Embed? || a.Fill?) && Step(sha, mulAdd, s, a) == Some(s')
    ensures Inv(sha, mulAdd, s')
  {
    hide PushStep, LastRenamed, Answers, Passed, HolderOk, SetsOk, FillStep, AllAnswered;
    assert HolderOk(s') by { HolderFrame(s, s'); }
    assert SetsOk(sha, s') by { SetsFrame(sha, s, s'); }
    RpcsKept(mulAdd, s, a, s', sha);
  }

  lemma RpcsKept(mulAdd: MulAdd, s: State, a: Action, s': State, sha: Bytes -> Bytes)
    requires StoresOk(s) && LockOk(s) && RpcsOk(mulAdd, s)
    requires (a.Snapshot? || a.Embed? || a.Fill?) && Step(sha, mulAdd, s, a) == Some(s')
    ensures RpcsOk(mulAdd, s')
  {
    hide LastRenamed, LastStored, StoredCount, InstalledSinceBoot, FillStep, AllAnswered;
    if a.Snapshot? {
      MemoryIsInstalled(s);
      NothingAnswered(mulAdd, s'.rpcs[a.rpc]);
    } else if a.Embed? {
      BackendReplies(mulAdd, s.rpcs[a.asking], a.vectors);
    } else {
      FillKeeps(mulAdd, s.rpcs[a.filling], s'.rpcs[a.filling]);
    }
    forall r | r in s'.rpcs
      ensures InstalledSinceBoot(s', s'.rpcs[r].snapshot)
    {
      StillInstalled(s, s', s'.rpcs[r].snapshot);
    }
  }

  lemma NothingAnswered(mulAdd: MulAdd, rpc: Rpc)
    requires rpc.answers == [] && rpc.pc == AskingBackend
    ensures AllAnswered(mulAdd, rpc)
  {
  }

  lemma BackendReplies(mulAdd: MulAdd, rpc: Rpc, vectors: seq<seq<Word>>)
    requires AllAnswered(mulAdd, rpc) && rpc.pc == AskingBackend
    ensures AllAnswered(mulAdd, rpc.(vectors := vectors, pc := Filling(0, Vector)))
  {
  }

  lemma HolderFrame(s: State, s': State)
    requires HolderOk(s) && s'.lock == s.lock && s'.pushes == s.pushes && s'.installs == s.installs
    requires s'.bornAt == s.bornAt && s'.temps == s.temps
    ensures HolderOk(s')
  {
  }

  lemma SetsFrame(sha: Bytes -> Bytes, s: State, s': State)
    requires SetsOk(sha, s) && s'.pushes == s.pushes && s'.installs == s.installs && s'.restored == s.restored
    ensures SetsOk(sha, s')
  {
  }

  lemma ReceiveKeepsInv(sha: Bytes -> Bytes, mulAdd: MulAdd, s: State, p: PushId, frames: seq<Frame>, s': State)
    requires Inv(sha, mulAdd, s) && Step(sha, mulAdd, s, Receive(p, frames)) == Some(s')
    ensures Inv(sha, mulAdd, s')
  {
    hide PushStep, LastRenamed, AllAnswered, Accepted, Passed, InstalledSinceBoot;
    AcceptedPassed(sha, frames);
    forall r | r in s'.rpcs
      ensures InstalledSinceBoot(s', s'.rpcs[r].snapshot)
    {
      StillInstalled(s, s', s'.rpcs[r].snapshot);
    }
  }

  lemma CrashAndBootKeepInv(sha: Bytes -> Bytes, mulAdd: MulAdd, s: State, a: Action, s': State)
    requires Inv(sha, mulAdd, s) && (a.Crash? || a.Boot?) && Step(sha, mulAdd, s, a) == Some(s')
    ensures Inv(sha, mulAdd, s')
  {
    hide PushStep, LastRenamed, AllAnswered, Verified, Valid;
  }

  lemma StepKeepsInv(sha: Bytes -> Bytes, mulAdd: MulAdd, s: State, a: Action, s': State)
    requires Inv(sha, mulAdd, s) && Step(sha, mulAdd, s, a) == Some(s')
    ensures Inv(sha, mulAdd, s')
  {
    hide PushStep, LockOk, HolderOk, StoresOk, SetsOk, RpcsOk;
    match a
    case Advance(p, ok, unused) =>
      PushKeepsLock(s, p, ok, unused, s');
      PushKeepsHolder(s, p, ok, unused, s');
      PushKeepsStores(s, p, ok, unused, s');
      PushKeepsSets(sha, mulAdd, s, p, ok, unused, s');
    case Receive(p, frames) => ReceiveKeepsInv(sha, mulAdd, s, p, frames, s');
    case Snapshot(_) => RpcKeepsInv(sha, mulAdd, s, a, s');
    case Embed(_, _) => RpcKeepsInv(sha, mulAdd, s, a, s');
    case Fill(_) => RpcKeepsInv(sha, mulAdd, s, a, s');
    case Crash => CrashAndBootKeepInv(sha, mulAdd, s, a, s');
    case Boot => CrashAndBootKeepInv(sha, mulAdd, s, a, s');
  }

  lemma AcceptedPassed(sha: Bytes -> Bytes, frames: seq<Frame>)
    requires Accepted(sha, frames, Eof)
    ensures HasHeader(frames) && Passed(sha, Assembled(frames))
  {
  }

  lemma MemoryIsInstalled(s: State)
    requires StoresOk(s) && s.up && s.mem.Some?
    ensures InstalledSinceBoot(s, s.mem.value)
  {
    var n := StoredCount(s);
    if n > s.bornAt {
      assert s.installs[n - 1].cs == s.mem.value;
    }
  }

  lemma {:induction false} RunKeepsInv(sha: Bytes -> Bytes, mulAdd: MulAdd, s0: State, acts: seq<Action>, s: State)
    requires Init(s0) && Run(sha, mulAdd, s0, acts) == Some(s)
    ensures Inv(sha, mulAdd, s)
  {
    hide Step;
    if acts != [] {
      var front := acts[..|acts| - 1];
      RunKeepsInv(sha, mulAdd, s0, front, Run(sha, mulAdd, s0, front).value);
      StepKeepsInv(sha, mulAdd, Run(sha, mulAdd, s0, front).value, acts[|acts| - 1], s);
    }
  }

  lemma ReachableInv(sha: Bytes -> Bytes, mulAdd: MulAdd, s: State)
    requires Reachable(sha, mulAdd, s)
    ensures Inv(sha, mulAdd, s)
  {
    hide Inv, Init, Run;
    var s0: State, acts: seq<Action> :| Init(s0) && Run(sha, mulAdd, s0, acts) == Some(s);
    RunKeepsInv(sha, mulAdd, s0, acts, s);
  }

  // ----- the theorems -----

  /** With installMu free, memory holds the last set in the order installMu was taken since the boot. */
  lemma MemoryIsLastInstall(sha: Bytes -> Bytes, mulAdd: MulAdd, s: State)
    requires Reachable(sha, mulAdd, s) && s.up && s.lock == None
    ensures s.mem == if |s.installs| > s.bornAt then Some(s.installs[|s.installs| - 1].cs) else s.restored
  {
    hide Reachable, LockOk, HolderOk, SetsOk, RpcsOk;
    ReachableInv(sha, mulAdd, s);
  }

  /** At any moment, even between two file operations, the cache is the last set whose rename happened. */
  lemma CacheIsLastRenamed(sha: Bytes -> Bytes, mulAdd: MulAdd, s: State)
    requires Reachable(sha, mulAdd, s)
    ensures s.cache == LastRenamed(s.initial, s.installs)
    ensures s.initial == None ==> s.cache != Some(Torn)
  {
    hide Reachable, LockOk, HolderOk, SetsOk, RpcsOk;
    ReachableInv(sha, mulAdd, s);
    NeverTorn(s.installs);
  }

  lemma {:induction false} NeverTorn(installs: seq<Install>)
    ensures LastRenamed(None, installs) != Some(Torn)
  {
    if installs != [] {
      NeverTorn(installs[..|installs| - 1]);
    }
  }

  lemma {:induction false} LastRenamedPassed(sha: Bytes -> Bytes, initial: Option<FileContent>, installs: seq<Install>)
    requires forall i :: 0 <= i < |installs| ==> Passed(sha, installs[i].cs)
    ensures (exists i :: 0 <= i < |installs| && installs[i].renamed) ==>
              Restore(sha, LastRenamed(initial, installs)).Some?
                  && LastRenamed(initial, installs) == Some(Whole(Restore(sha, LastRenamed(initial, installs)).value))
    ensures (forall i :: 0 <= i < |installs| ==> !installs[i].renamed) ==> LastRenamed(initial, installs) == initial
  {
    if installs != [] {
      var front := installs[..|installs| - 1];
      LastRenamedPassed(sha, initial, front);
      if i :| 0 <= i < |front| && installs[i].renamed {
        assert front[i].renamed;
      }
    }
  }

  /** When the last push of this boot got through its rename, memory and disk hold the same set. */
  lemma StoresAgree(sha: Bytes -> Bytes, mulAdd: MulAdd, s: State)
    requires Reachable(sha, mulAdd, s) && s.up && s.lock == None
    requires |s.installs| > s.bornAt && s.installs[|s.installs| - 1].renamed
    ensures s.mem.Some? && s.cache == Some(Whole(s.mem.value))
  {
    hide Reachable;
    MemoryIsLastInstall(sha, mulAdd, s);
    CacheIsLastRenamed(sha, mulAdd, s);
  }

  /** A restart serves exactly the set of the last push whose rename happened, in whatever boot that was. */
  lemma BootRestoresLastRenamed(sha: Bytes -> Bytes, mulAdd: MulAdd, s: State, s': State)
    requires Reachable(sha, mulAdd, s) && Step(sha, mulAdd, s, Boot) == Some(s')
    ensures (exists i :: 0 <= i < |s.installs| && s.installs[i].renamed) ==>
              s'.mem.Some? && LastRenamed(s.initial, s.installs) == Some(Whole(s'.mem.value))
    ensures (forall i :: 0 <= i < |s.installs| ==> !s.installs[i].renamed) ==> s'.mem == Restore(sha, s.initial)
  {
    hide Reachable, LockOk, HolderOk, RpcsOk;
    ReachableInv(sha, mulAdd, s);
    LastRenamedPassed(sha, s.initial, s.installs);
  }

  /**
    Whatever pushes come in between, a finished request has one answer for each of the backend's vectors, in
    order, all routed by one set, and that set passed its checks and was installed in this process's life.
  */
  lemma AnswersComeFromOneSet(sha: Bytes -> Bytes, mulAdd: MulAdd, s: State, r: RpcId)
    requires Reachable(sha, mulAdd, s) && r in s.rpcs && s.rpcs[r].pc == Finished
    ensures |s.rpcs[r].answers| == |s.rpcs[r].vectors|
    ensures exists cs: CentroidSet ::
              && InstalledSinceBoot(s, cs) && Passed(sha, cs)
              && forall i :: 0 <= i < |s.rpcs[r].answers| ==>
                  Answers(mulAdd, Some(cs), s.rpcs[r].vectors[i], s.rpcs[r].answers[i])
  {
    hide Reachable, LockOk, HolderOk, StoresOk, Answers, Passed;
    ReachableInv(sha, mulAdd, s);
    var cs := s.rpcs[r].snapshot;
    assert AllAnswered(mulAdd, s.rpcs[r]);
    assert Passed(sha, cs);
  }

  // ----- what does happen -----

  /** `n` steps of one push, each of whose operations works. */
  function Smoothly(s: State, p: PushId, unused: TempId, n: nat): Option<State> {
    if n == 0 then Some(s)
    else
      var before := Smoothly(s, p, unused, n - 1);
      if before == None || p !in before.value.pushes then None
      else PushStep(before.value, p, true, unused)
  }

  /** They are steps of the system. */
  lemma {:induction false} SmoothlyRuns(sha: Bytes -> Bytes, mulAdd: MulAdd, s: State, p: PushId, unused: TempId,
      n: nat)
      returns (acts: seq<Action>)
    requires Smoothly(s, p, unused, n).Some?
    ensures |acts| == n && Run(sha, mulAdd, s, acts) == Smoothly(s, p, unused, n)
  {
    hide PushStep;
    if n == 0 {
      acts := [];
    } else {
      var front := SmoothlyRuns(sha, mulAdd, s, p, unused, n - 1);
      acts := front + [Advance(p, true, unused)];
      assert acts[..|acts| - 1] == front;
    }
  }

  lemma Next(s: State, p: PushId, unused: TempId, n: nat, now: State, s': State)
    requires Smoothly(s, p, unused, n) == Some(now) && p in now.pushes && PushStep(now, p, true, unused) == Some(s')
    ensures Smoothly(s, p, unused, n + 1) == Some(s')
  {
    hide PushStep;
  }

  /** The push holds the lock and has stored its set. */
  function InMemory(s: State, p: PushId, pc: PushPc): State
    requires p in s.pushes
  {
    Goto(s.(lock := Some(p), installs := s.installs + [Install(s.pushes[p].cs, false)], mem := Some(s.pushes[p].cs)), p,
        pc)
  }

  lemma StoresInMemory(s: State, p: PushId, unused: TempId)
    requires p in s.pushes && s.pushes[p].pc == WantLock && s.lock == None
    ensures Smoothly(s, p, unused, 3) == Some(InMemory(s, p, CreateTemp))
  {
    assert Smoothly(s, p, unused, 0) == Some(s);
    hide Smoothly;
    var locked := PushStep(s, p, true, unused).value;
    Next(s, p, unused, 0, s, locked);
    assert InMemory(s, p, MakeDir).pushes == Goto(locked, p, MakeDir).pushes;
    Next(s, p, unused, 1, locked, InMemory(s, p, MakeDir));
    assert InMemory(s, p, CreateTemp).pushes == Goto(InMemory(s, p, MakeDir), p, CreateTemp).pushes;
    Next(s, p, unused, 2, InMemory(s, p, MakeDir), InMemory(s, p, CreateTemp));
  }

  /** Its temporary file is whole. */
  function WithTemp(s: State, p: PushId, unused: TempId, pc: PushPc): State
    requires p in s.pushes
  {
    Goto(s.(temps := s.temps[unused := Whole(s.pushes[p].cs)]), p, pc)
  }

  lemma WritesTemp(s: State, p: PushId, unused: TempId, now: State)
    requires Smoothly(s, p, unused, 3) == Some(now)
    requires p in now.pushes && now.pushes[p].pc == CreateTemp && unused !in now.temps
    ensures Smoothly(s, p, unused, 6) == Some(WithTemp(now, p, unused, RenameTemp(unused)))
  {
    hide Smoothly;
    var created := PushStep(now, p, true, unused).value;
    Next(s, p, unused, 3, now, created);
    var whole, closed := WithTemp(now, p, unused, CloseTemp(unused)), WithTemp(now, p, unused, RenameTemp(unused));
    assert whole.pushes == Goto(created, p, CloseTemp(unused)).pushes;
    assert whole.temps == created.temps[unused := Whole(now.pushes[p].cs)];
    Next(s, p, unused, 4, created, whole);
    assert closed.pushes == Goto(whole, p, RenameTemp(unused)).pushes;
    Next(s, p, unused, 5, whole, closed);
  }

  /** It has renamed the file and let go of the lock. */
  function Stored(s: State, p: PushId, unused: TempId): State
    requires p in s.pushes && unused in s.temps && s.installs != []
  {
    Goto(s.(cache := Some(s.temps[unused]), temps := s.temps - {unused}, installs := MarkRenamed(s.installs),
            lock := None), p, Installed)
  }

  lemma Renames(s: State, p: PushId, unused: TempId, now: State)
    requires Smoothly(s, p, unused, 6) == Some(now)
    requires p in now.pushes && now.pushes[p].pc == RenameTemp(unused) && unused in now.temps && now.installs != []
    ensures Smoothly(s, p, unused, 9) == Some(Stored(now, p, unused))
  {
    hide Smoothly, MarkRenamed;
    var renamed := PushStep(now, p, true, unused).value;
    Next(s, p, unused, 6, now, renamed);
    var cleaned := Goto(renamed, p, Unlock);
    assert renamed.temps - {unused} == renamed.temps;
    Next(s, p, unused, 7, renamed, cleaned);
    assert Stored(now, p, unused).pushes == Goto(cleaned, p, Installed).pushes;
    Next(s, p, unused, 8, cleaned, Stored(now, p, unused));
  }

  /**
    A push that gets installMu and whose operations all work ends after nine steps with its set in memory and
    in the cache, the lock free, and no temporary file left.
  */
  lemma SmoothPushIsStored(s: State, p: PushId, unused: TempId)
    requires p in s.pushes && s.pushes[p].pc == WantLock && s.lock == None && unused !in s.temps
    ensures var r := Smoothly(s, p, unused, 9);
            && r.Some? && r.value.mem == Some(s.pushes[p].cs) && r.value.cache == Some(Whole(s.pushes[p].cs))
            && r.value.lock == None && r.value.temps == s.temps
            && r.value.installs == s.installs + [Install(s.pushes[p].cs, true)]
  {
    hide Smoothly;
    var cs := s.pushes[p].cs;
    StoresInMemory(s, p, unused);
    var stored := InMemory(s, p, CreateTemp);
    WritesTemp(s, p, unused, stored);
    Renames(s, p, unused, WithTemp(stored, p, unused, RenameTemp(unused)));
    assert s.temps[unused := Whole(cs)] - {unused} == s.temps;
  }

  /** An operation of Persist that fails leaves the cache as it was, and no later one of that push renames. */
  lemma FailureKeepsCache(s: State, p: PushId, unused: TempId, s': State)
    requires p in s.pushes && PushStep(s, p, false, unused) == Some(s') && Persisting(s.pushes[p].pc)
    ensures s'.cache == s.cache && s'.installs == s.installs && s'.mem == s.mem
    ensures p in s'.pushes && (s'.pushes[p].pc == Unlock || s'.pushes[p].pc.RemoveTemp?)
  {
    assert PersistStep(s, p, false, unused) == Some(s');
    match s.pushes[p].pc
    case RemoveTemp(_) =>
    case _ =>
  }

  /** `n` fields of a request's answers. */
  function Filled(mulAdd: MulAdd, rpc: Rpc, n: nat): Option<Rpc>
    decreases n
  {
    if n == 0 then Some(rpc)
    else
      var next := FillStep(mulAdd, rpc);
      if next == None then None else Filled(mulAdd, next.value, n - 1)
  }

  /** Once the backend has answered, a request finishes after three fields for each vector. */
  lemma {:induction false} RequestFinishes(mulAdd: MulAdd, rpc: Rpc, i: nat)
    requires rpc.pc == Filling(i, Vector) && i == |rpc.answers| <= |rpc.vectors|
    ensures var r := Filled(mulAdd, rpc, 3 * (|rpc.vectors| - i) + 1);
            r.Some? && r.value.pc == Finished && |r.value.answers| == |rpc.vectors|
    decreases |rpc.vectors| - i
  {
    hide AssignedId;
    if i < |rpc.vectors| {
      var n := 3 * (|rpc.vectors| - i) + 1;
      var one := FillStep(mulAdd, rpc).value;
      var two := FillStep(mulAdd, one).value;
      var three := FillStep(mulAdd, two).value;
      RequestFinishes(mulAdd, three, i + 1);
      assert Filled(mulAdd, two, n - 2) == Filled(mulAdd, three, n - 3);
      assert Filled(mulAdd, one, n - 1) == Filled(mulAdd, two, n - 2);
      assert Filled(mulAdd, rpc, n) == Filled(mulAdd, one, n - 1);
    }
  }
}
