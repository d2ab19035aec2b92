/**
  The server's side of the centroid set: assembling a pushed stream, installing it, and answering
  embed requests that ask for a cluster.

  `sha` and `mulAdd` are as in `Route`. The disk cache is the whole set last written to it, since the
  gob encoding is taken to be injective; its file operations are in `CentroidCache`.
*/
module Centroids {
  import opened Wrappers
  import opened Route

  const VECTOR_DIM := 1024

  // ----- the stream -----

  /** `Unset` is a frame whose payload is of neither kind: it is skipped. */
  datatype Frame =
    | Header(version: string, dim: Word, preset: Bytes, nlist: Word)
    | Batch(vectors: seq<seq<Word>>)
    | Unset

  /** How the stream stopped yielding frames. */
  datatype Ending = Eof | Broken

  datatype PushError =
    | RecvFailed
    | DuplicateHeader
    | BatchBeforeHeader
    | MissingHeader
    | BadSet(invalid: Invalid)
    | VersionMismatch

  predicate HasHeader(frames: seq<Frame>) {
    exists i :: 0 <= i < |frames| && frames[i].Header?
  }

  /** Frame `k` breaks the order: a second header, or a batch with no header before it. */
  predicate OutOfOrder(frames: seq<Frame>, k: nat) {
    k < |frames|
    && match frames[k]
       case Header(_, _, _, _) => HasHeader(frames[..k])
       case Batch(_) => !HasHeader(frames[..k])
       case Unset => false
  }

  predicate InOrder(frames: seq<Frame>) {
    forall k :: 0 <= k < |frames| ==> !OutOfOrder(frames, k)
  }

  function HeaderOf(frames: seq<Frame>): (h: Frame)
    requires HasHeader(frames)
    ensures h.Header?
  {
    if frames[0].Header? then frames[0] else HeaderOf(frames[1..])
  }

  /** Every vector sent, in order of arrival. */
  function Sent(frames: seq<Frame>): seq<seq<Word>> {
    if frames == [] then []
    else Sent(frames[..|frames| - 1]) + (if frames[|frames| - 1].Batch? then frames[|frames| - 1].vectors else [])
  }

  /** What the batch frames carry, frame by frame. */
  function Batches(frames: seq<Frame>): seq<seq<seq<Word>>> {
    if frames == [] then []
    else (if frames[0].Batch? then [frames[0].vectors] else []) + Batches(frames[1..])
  }

  function Flatten(batches: seq<seq<seq<Word>>>): seq<seq<Word>> {
    if batches == [] then [] else batches[0] + Flatten(batches[1..])
  }

  lemma {:induction false} SentOfAppend(f: seq<Frame>, g: seq<Frame>)
    ensures Sent(f + g) == Sent(f) + Sent(g)
  {
    if g == [] {
      assert f + g == f;
    } else {
      SentOfAppend(f, g[..|g| - 1]);
      assert (f + g)[..|f + g| - 1] == f + g[..|g| - 1];
    }
  }

  lemma SentOfOne(x: Frame)
    ensures Sent([x]) == if x.Batch? then x.vectors else []
  {
    assert [x][..0] == [];
  }

  /** The vectors sent are the batches laid end to end, the first one first. */
  lemma {:induction false} SentIsFlattened(frames: seq<Frame>)
    ensures Sent(frames) == Flatten(Batches(frames))
  {
    if frames != [] {
      SentIsFlattened(frames[1..]);
      SentOfAppend([frames[0]], frames[1..]);
      SentOfOne(frames[0]);
      assert frames == [frames[0]] + frames[1..];
      var rest := Batches(frames[1..]);
      if frames[0].Batch? {
        assert Batches(frames) == [frames[0].vectors] + rest;
        assert ([frames[0].vectors] + rest)[1..] == rest;
      } else {
        assert Batches(frames) == [] + rest == rest;
      }
    }
  }

  /** The set a stream stands for. Its `nlist` is only a hint for the allocation. */
  function Assembled(frames: seq<Frame>): CentroidSet
    requires HasHeader(frames)
  {
    var h := HeaderOf(frames);
    CentroidSet(h.version, h.dim, h.preset, Sent(frames))
  }

  /** The stream is one the server installs. */
  predicate Accepted(sha: Bytes -> Bytes, frames: seq<Frame>, ending: Ending) {
    && InOrder(frames) && ending == Eof && HasHeader(frames)
    && Valid(Assembled(frames), VECTOR_DIM) && Verified(sha, Assembled(frames))
  }

  /** The first thing wrong with the stream, if anything is. */
  predicate RejectedFor(sha: Bytes -> Bytes, frames: seq<Frame>, ending: Ending, why: PushError) {
    match why
    case DuplicateHeader => exists k ::
        0 <= k < |frames| && OutOfOrder(frames, k) && frames[k].Header? && InOrder(frames[..k])
    case BatchBeforeHeader => exists k ::
        0 <= k < |frames| && OutOfOrder(frames, k) && frames[k].Batch? && InOrder(frames[..k])
    case RecvFailed => InOrder(frames) && ending == Broken
    case MissingHeader => InOrder(frames) && ending == Eof && !HasHeader(frames)
    case BadSet(_) => InOrder(frames) && ending == Eof && HasHeader(frames) && !Valid(Assembled(frames), VECTOR_DIM)
    case VersionMismatch =>
      && InOrder(frames) && ending == Eof && HasHeader(frames) && Valid(Assembled(frames), VECTOR_DIM)
      && !Verified(sha, Assembled(frames))
  }

  // ----- one frame more -----

  lemma OrderSoFar(frames: seq<Frame>, i: nat)
    requires i < |frames| && InOrder(frames[..i])
    ensures InOrder(frames[..i + 1]) <==> !OutOfOrder(frames, i)
    ensures HasHeader(frames[..i + 1]) <==> HasHeader(frames[..i]) || frames[i].Header?
    ensures OutOfOrder(frames, i) ==> !InOrder(frames)
  {
    var next := frames[..i + 1];
    assert next == frames[..i] + [frames[i]];
    assert next[..i] == frames[..i];
    assert OutOfOrder(next, i) <==> OutOfOrder(frames, i);
    forall k | 0 <= k < i
      ensures OutOfOrder(next, k) <==> OutOfOrder(frames[..i], k)
    {
      assert next[..k] == frames[..i][..k] && next[k] == frames[..i][k];
    }
    if HasHeader(frames[..i]) {
      var j :| 0 <= j < i && frames[..i][j].Header?;
      assert next[j].Header?;
    }
  }

  lemma {:induction false} HeaderStays(frames: seq<Frame>, next: Frame)
    requires HasHeader(frames)
    ensures HasHeader(frames + [next]) && HeaderOf(frames + [next]) == HeaderOf(frames)
  {
    var j :| 0 <= j < |frames| && frames[j].Header?;
    assert (frames + [next])[j].Header?;
    assert (frames + [next])[0] == frames[0];
    if !frames[0].Header? {
      assert frames[1..][j - 1].Header?;
      HeaderStays(frames[1..], next);
      assert (frames + [next])[1..] == frames[1..] + [next];
    }
  }

  lemma {:induction false} FirstHeader(frames: seq<Frame>, next: Frame)
    requires !HasHeader(frames) && next.Header?
    ensures HasHeader(frames + [next]) && HeaderOf(frames + [next]) == next
  {
    assert (frames + [next])[|frames|].Header?;
    if frames != [] {
      FirstHeader(frames[1..], next);
      assert (frames + [next])[1..] == frames[1..] + [next];
    }
  }

  lemma {:induction false} NothingSent(frames: seq<Frame>)
    requires InOrder(frames) && !HasHeader(frames)
    ensures Sent(frames) == []
  {
    if frames != [] {
      var k := |frames| - 1;
      assert !OutOfOrder(frames, k);
      OrderSoFarBack(frames);
      NothingSent(frames[..k]);
    }
  }

  lemma OrderSoFarBack(frames: seq<Frame>)
    requires frames != [] && InOrder(frames)
    ensures InOrder(frames[..|frames| - 1])
    ensures !HasHeader(frames) ==> !HasHeader(frames[..|frames| - 1])
  {
    var front := frames[..|frames| - 1];
    forall k | 0 <= k < |front|
      ensures !OutOfOrder(front, k)
    {
      assert front[..k] == frames[..k] && !OutOfOrder(frames, k);
    }
  }

  lemma {:induction false} HeaderIsThere(frames: seq<Frame>) returns (k: nat)
    requires HasHeader(frames)
    ensures k < |frames| && frames[k] == HeaderOf(frames)
  {
    if frames[0].Header? {
      k := 0;
    } else {
      var j :| 0 <= j < |frames| && frames[j].Header?;
      assert frames[1..][j - 1].Header?;
      k := HeaderIsThere(frames[1..]);
      k := k + 1;
    }
  }

  lemma NoTwoHeaders(frames: seq<Frame>, j: nat, k: nat)
    requires j < k < |frames| && frames[j].Header? && frames[k].Header?
    ensures !InOrder(frames)
  {
    assert frames[..k][j].Header?;
    assert OutOfOrder(frames, k);
  }

  lemma OnlyHeader(frames: seq<Frame>, k: nat)
    requires InOrder(frames) && k < |frames| && frames[k].Header?
    ensures HasHeader(frames) && HeaderOf(frames) == frames[k]
  {
    var j := HeaderIsThere(frames);
    if j < k {
      NoTwoHeaders(frames, j, k);
    }
    if k < j {
      NoTwoHeaders(frames, k, j);
    }
  }

  /** The receive loop: it stops at the first frame out of order. */
  method Receive(frames: seq<Frame>, ending: Ending) returns (r: Result<CentroidSet, PushError>)
    ensures r.Ok? <==> InOrder(frames) && ending == Eof && HasHeader(frames)
    ensures r.Ok? ==> r.value == Assembled(frames)
    ensures r.Ok? ==> r.value.vectors == Flatten(Batches(frames))
    ensures r.Ok? ==> forall k :: 0 <= k < |frames| && frames[k].Header? ==>
              && r.value.version == frames[k].version && r.value.dim == frames[k].dim
              && r.value.preset == frames[k].preset
    ensures r.Err? ==> !r.error.BadSet? && !r.error.VersionMismatch?
    ensures r.Err? ==> forall sha :: RejectedFor(sha, frames, ending, r.error)
  {
    var cs: Option<CentroidSet> := None;
    for i := 0 to |frames|
      invariant InOrder(frames[..i]) && (cs.Some? <==> HasHeader(frames[..i]))
      invariant cs.Some? ==> cs.value == Assembled(frames[..i])
    {
      ghost var seen := frames[..i];
      OrderSoFar(frames, i);
      assert frames[..i + 1] == seen + [frames[i]];
      assert (seen + [frames[i]])[..i] == seen;
      match frames[i] {
        case Header(version, dim, preset, nlist) =>
          if cs.Some? {
            return Err(DuplicateHeader);
          }
          NothingSent(seen);
          FirstHeader(seen, frames[i]);
          cs := Some(CentroidSet(version, dim, preset, []));
        case Batch(vectors) =>
          if cs == None {
            return Err(BatchBeforeHeader);
          }
          HeaderStays(seen, frames[i]);
          cs := Some(cs.value.(vectors := cs.value.vectors + vectors));
        case Unset =>
          if cs.Some? {
            HeaderStays(seen, frames[i]);
          }
      }
    }
    assert frames[..|frames|] == frames;
    if ending == Broken {
      return Err(RecvFailed);
    }
    if cs == None {
      return Err(MissingHeader);
    }
    SentIsFlattened(frames);
    forall k | 0 <= k < |frames| && frames[k].Header?
      ensures frames[k] == HeaderOf(frames)
    {
      OnlyHeader(frames, k);
    }
    return Ok(cs.value);
  }

  // ----- the server -----

  /** What the backend said to one attempt: it would not start, or the answer to the request. */
  datatype Attempt = NotReady | Replied(reply: Reply)

  /** `NoPort` is ErrNotStarted; `Data` is the decoded answer of llama-server. */
  datatype Reply = NoPort | CallFailed | Data(vectors: seq<seq<Word>>)

  datatype BackendError = NotStarted | HttpError | EmptyResponse | SizeMismatch(want: nat, got: nat)

  datatype Embedded = Embedded(vector: seq<Word>, cluster: Word, setVersion: string)

  datatype RpcError =
    | Bootstrapping
    | NoCentroidSet
    | BackendNotReady
    | BackendFailed(cause: BackendError)
    | KeptSuspending

  const MAX_ATTEMPTS := 2

  /** `e` answers `vec`; with routing, its cluster and version both come from `cs`. */
  ghost predicate Answers(mulAdd: MulAdd, cs: Option<CentroidSet>, vec: seq<Word>, e: Embedded) {
    && e.vector == vec
    && match cs
       case None => e.cluster == 0 && e.setVersion == ""
       case Some(given) => AssignedTo(mulAdd, given, vec, e.cluster) && e.setVersion == given.version
  }

  /** The client of llama-server: the answer must hold one vector for each text. */
  method BackendEmbedBatch(texts: seq<string>, reply: Reply) returns (r: Result<seq<seq<Word>>, BackendError>)
    ensures r == BatchResult(|texts|, reply)
    ensures texts == [] ==> r == Ok([])
    ensures texts != [] ==> (r.Ok? <==> reply.Data? && |reply.vectors| == |texts|)
    ensures r.Ok? && texts != [] ==> |r.value| == |texts| && forall i :: 0 <= i < |texts| ==>
              r.value[i] == reply.vectors[i]
    ensures texts != [] ==> (r == Err(NotStarted) <==> reply == NoPort)
    ensures texts != [] ==> (r == Err(HttpError) <==> reply == CallFailed)
  {
    if |texts| == 0 {
      return Ok([]);
    }
    match reply
    case NoPort => return Err(NotStarted);
    case CallFailed => return Err(HttpError);
    case Data(vectors) =>
      if |vectors| != |texts| {
        return Err(SizeMismatch(|texts|, |vectors|));
      }
      var result := new seq<Word>[|vectors|](_ => []);
      for i := 0 to |vectors|
        invariant result[..i] == vectors[..i]
      {
        result[i] := vectors[i];
      }
      assert result[..] == result[..|vectors|] == vectors[..|vectors|] == vectors;
      return Ok(result[..]);
  }

  function BatchResult(n: nat, reply: Reply): Result<seq<seq<Word>>, BackendError> {
    if n == 0 then Ok([])
    else
      match reply
      case NoPort => Err(NotStarted)
      case CallFailed => Err(HttpError)
      case Data(vectors) => if |vectors| == n then Ok(vectors) else Err(SizeMismatch(n, |vectors|))
  }

  /** The same client for one text: the first vector of the answer, however many there are. */
  method BackendEmbed(reply: Reply) returns (r: Result<seq<Word>, BackendError>)
    ensures r.Ok? <==> reply.Data? && |reply.vectors| > 0
    ensures r.Ok? ==> r.value == reply.vectors[0]
    ensures (r == Err(NotStarted) <==> reply == NoPort) && (r == Err(HttpError) <==> reply == CallFailed)
    ensures r == SingleResult(reply)
  {
    match reply
    case NoPort => return Err(NotStarted);
    case CallFailed => return Err(HttpError);
    case Data(vectors) =>
      if |vectors| == 0 {
        return Err(EmptyResponse);
      }
      return Ok(vectors[0]);
  }

  function SingleResult(reply: Reply): Result<seq<Word>, BackendError> {
    match reply
    case NoPort => Err(NotStarted)
    case CallFailed => Err(HttpError)
    case Data(vectors) => if |vectors| == 0 then Err(EmptyResponse) else Ok(vectors[0])
  }

  /** The attempt did not reach a child: only this makes the server try again. */
  predicate LostChild(n: nat, a: Attempt) {
    n > 0 && a == Replied(NoPort)
  }

  /** The first attempt that did not lose its child. */
  predicate Decisive(n: nat, backend: nat -> Attempt, k: nat) {
    !LostChild(n, backend(k)) && forall j :: 0 <= j < k ==> LostChild(n, backend(j))
  }

  /** What the deciding attempt makes of a batch: its error, or every vector answered from the one set. */
  ghost predicate Settled(
    mulAdd: MulAdd, cs: Option<CentroidSet>, n: nat, a: Attempt, r: Result<seq<Embedded>, RpcError>)
  {
    match a
    case NotReady => r == Err(BackendNotReady)
    case Replied(reply) =>
      match BatchResult(n, reply)
      case Err(e) => r == Err(BackendFailed(e))
      case Ok(vecs) =>
        && r.Ok? && |r.value| == |vecs|
        && forall i :: 0 <= i < |vecs| ==> Answers(mulAdd, cs, vecs[i], r.value[i])
  }

  /** The vectors of the answer are those of the reply, each in its place. */
  predicate CarriedBack(a: Attempt, answer: seq<Embedded>) {
    && a.Replied? && a.reply.Data? && |a.reply.vectors| == |answer|
    && forall i :: 0 <= i < |answer| ==> answer[i].vector == a.reply.vectors[i]
  }

  /** And of a single call. */
  ghost predicate SettledOne(mulAdd: MulAdd, cs: Option<CentroidSet>, a: Attempt, r: Result<Embedded, RpcError>) {
    match a
    case NotReady => r == Err(BackendNotReady)
    case Replied(reply) =>
      match SingleResult(reply)
      case Err(e) => r == Err(BackendFailed(e))
      case Ok(vec) => r.Ok? && Answers(mulAdd, cs, vec, r.value)
  }

  class Server {
    const sha: Bytes -> Bytes
    const mulAdd: MulAdd
    const cacheDir: bool
    var backendSet: bool
    var requests: nat
    var centroids: Option<CentroidSet>
    var disk: Option<CentroidSet>

    constructor (sha: Bytes -> Bytes, mulAdd: MulAdd, cacheDir: bool, cached: Option<CentroidSet>)
      ensures this.sha == sha && this.mulAdd == mulAdd && this.cacheDir == cacheDir
      ensures !backendSet && requests == 0 && centroids == None && disk == cached
    {
      this.sha, this.mulAdd, this.cacheDir := sha, mulAdd, cacheDir;
      backendSet, requests, centroids, disk := false, 0, None, cached;
    }

    method LoadCentroids(given: Option<CentroidSet>) returns (ok: bool)
      modifies this`centroids
      ensures ok <==> given.Some? && Valid(given.value, VECTOR_DIM)
      ensures centroids == if ok then given else old(centroids)
    {
      if given == None {
        return false;
      }
      var bad := Validate(given, VECTOR_DIM);
      if bad.Some? {
        return false;
      }
      centroids := given;
      return true;
    }

    /** `persisted` says whether every file operation of Persist went well; the push succeeds either way. */
    method SetCentroids(frames: seq<Frame>, ending: Ending, persisted: bool)
        returns (r: Result<(string, Word), PushError>)
      modifies this`centroids, this`disk
      ensures r.Ok? <==> Accepted(sha, frames, ending)
      ensures r.Err? ==> RejectedFor(sha, frames, ending, r.error) && centroids == old(centroids) && disk == old(disk)
      ensures r.Ok? ==> centroids == Some(Assembled(frames)) && Assembled(frames).dim == 1024
      ensures r.Ok? ==> disk == if cacheDir && persisted then centroids else old(disk)
      ensures r.Ok? ==> r.value == (Assembled(frames).version, Truncate(|Sent(frames)|))
    {
      var received := Receive(frames, ending);
      if received.Err? {
        return Err(received.error);
      }
      var cs := Some(received.value);
      var bad := Validate(cs, VECTOR_DIM);
      if bad.Some? {
        return Err(BadSet(bad.value));
      }
      var ok := VerifyVersion(sha, cs.value);
      if !ok {
        return Err(VersionMismatch);
      }
      centroids := cs;
      if cacheDir && persisted {
        disk := cs;
      }
      return Ok((cs.value.version, Truncate(|cs.value.vectors|)));
    }

    /** One text; what it says does not matter here. */
    method Embed(withRoute: bool, backend: nat -> Attempt) returns (r: Result<Embedded, RpcError>)
      modifies this`requests
      ensures !old(backendSet) ==> r == Err(Bootstrapping) && requests == old(requests)
      ensures backendSet && withRoute && centroids == None ==> r == Err(NoCentroidSet) && requests == old(requests)
      ensures backendSet && (withRoute ==> centroids.Some?) ==> requests == old(requests) + 1
      ensures backendSet && (withRoute ==> centroids.Some?) ==>
                (r == Err(KeptSuspending) <==> forall k :: 0 <= k < 2 ==> LostChild(1, backend(k)))
      ensures backendSet && (withRoute ==> centroids.Some?) ==>
                forall k :: 0 <= k < 2 && Decisive(1, backend, k) ==>
                  SettledOne(mulAdd, if withRoute then centroids else None, backend(k), r)
    {
      if !backendSet {
        return Err(Bootstrapping);
      }
      var cs := centroids;
      if withRoute && cs == None {
        return Err(NoCentroidSet);
      }
      requests := requests + 1;
      for attempt := 0 to MAX_ATTEMPTS
        invariant requests == old(requests) + 1
        invariant forall k :: 0 <= k < attempt ==> LostChild(1, backend(k))
      {
        if backend(attempt) == NotReady {
          return Err(BackendNotReady);
        }
        var vec := BackendEmbed(backend(attempt).reply);
        if vec.Ok? {
          var resp := Embedded(vec.value, 0, "");
          if withRoute {
            var id := Assign(mulAdd, cs.value, vec.value);
            resp := Embedded(vec.value, id, cs.value.version);
          }
          return Ok(resp);
        }
        if vec.error != NotStarted {
          return Err(BackendFailed(vec.error));
        }
      }
      return Err(KeptSuspending);
    }

    /** One snapshot of the set, taken before the backend is asked, serves the whole batch. */
    method EmbedBatch(texts: seq<string>, withRoute: bool, backend: nat -> Attempt)
        returns (r: Result<seq<Embedded>, RpcError>)
      modifies this`requests
      ensures !old(backendSet) ==> r == Err(Bootstrapping) && requests == old(requests)
      ensures backendSet && withRoute && centroids == None ==> r == Err(NoCentroidSet) && requests == old(requests)
      ensures backendSet && (withRoute ==> centroids.Some?) ==> requests == old(requests) + 1
      ensures backendSet && (withRoute ==> centroids.Some?) ==>
                (r == Err(KeptSuspending) <==> forall k :: 0 <= k < 2 ==> LostChild(|texts|, backend(k)))
      ensures backendSet && (withRoute ==> centroids.Some?) ==>
                forall k :: 0 <= k < 2 && Decisive(|texts|, backend, k) ==>
                  Settled(mulAdd, if withRoute then centroids else None, |texts|, backend(k), r)
      ensures r.Ok? ==> |r.value| == |texts|
      ensures r.Ok? && texts != [] ==>
                exists k :: 0 <= k < 2 && Decisive(|texts|, backend, k) && CarriedBack(backend(k), r.value)
    {
      if !backendSet {
        return Err(Bootstrapping);
      }
      var cs := centroids;
      if withRoute && cs == None {
        return Err(NoCentroidSet);
      }
      requests := requests + 1;
      for attempt := 0 to MAX_ATTEMPTS
        invariant requests == old(requests) + 1
        invariant forall k :: 0 <= k < attempt ==> LostChild(|texts|, backend(k))
      {
        if backend(attempt) == NotReady {
          return Err(BackendNotReady);
        }
        var vecs := BackendEmbedBatch(texts, backend(attempt).reply);
        if vecs.Ok? {
          var out := RouteAll(vecs.value, if withRoute then cs else None);
          assert texts != [] ==> Decisive(|texts|, backend, attempt) && CarriedBack(backend(attempt), out);
          return Ok(out);
        }
        if vecs.error != NotStarted {
          return Err(BackendFailed(vecs.error));
        }
      }
      return Err(KeptSuspending);
    }

    method RouteAll(vecs: seq<seq<Word>>, cs: Option<CentroidSet>) returns (out: seq<Embedded>)
      ensures |out| == |vecs| && forall i :: 0 <= i < |out| ==> Answers(mulAdd, cs, vecs[i], out[i])
    {
      var filled := new Embedded[|vecs|](_ => Embedded([], 0, ""));
      for i := 0 to |vecs|
        invariant forall j :: 0 <= j < i ==> Answers(mulAdd, cs, vecs[j], filled[j])
      {
        filled[i] := Embedded(vecs[i], 0, "");
        if cs.Some? {
          var id := Assign(mulAdd, cs.value, vecs[i]);
          filled[i] := Embedded(vecs[i], id, cs.value.version);
        }
      }
      out := filled[..];
    }
  }

  // ----- what a stream can install -----

  /** A stream is rejected for one kind of reason, and never if it is accepted. */
  lemma RejectionIsDetermined(sha: Bytes -> Bytes, frames: seq<Frame>, ending: Ending, a: PushError, b: PushError)
    requires RejectedFor(sha, frames, ending, a)
    ensures !Accepted(sha, frames, ending)
    ensures RejectedFor(sha, frames, ending, b) ==> a == b || (a.BadSet? && b.BadSet?)
  {
    hide Assembled, Verified, Valid, HasHeader;
    if RejectedFor(sha, frames, ending, b) && !InOrder(frames) {
      var j :| 0 <= j < |frames| && OutOfOrder(frames, j) && InOrder(frames[..j])
               && (if a == DuplicateHeader then frames[j].Header? else frames[j].Batch?);
      var k :| 0 <= k < |frames| && OutOfOrder(frames, k) && InOrder(frames[..k])
               && (if b == DuplicateHeader then frames[k].Header? else frames[k].Batch?);
      FirstOutOfOrder(frames, j, k);
      FirstOutOfOrder(frames, k, j);
    }
  }

  lemma FirstOutOfOrder(frames: seq<Frame>, j: nat, k: nat)
    requires j < |frames| && k < |frames| && OutOfOrder(frames, j) && InOrder(frames[..k])
    ensures k <= j
  {
    if j < k {
      OrderIsLocal(frames, j, k);
    }
  }

  lemma OrderIsLocal(frames: seq<Frame>, j: nat, k: nat)
    requires j < k <= |frames|
    ensures OutOfOrder(frames[..k], j) <==> OutOfOrder(frames, j)
  {
    assert frames[..k][..j] == frames[..j];
  }

  /** All but the hint. */
  predicate SameHeader(a: Frame, b: Frame)
    requires a.Header? && b.Header?
  {
    a.version == b.version && a.dim == b.dim && a.preset == b.preset
  }

  /**
    However the vectors are split into batches, whatever `nlist` says and wherever empty frames come: two
    streams in order with the same header, whose batches laid end to end are the same vectors, have one
    verdict and install one set.
  */
  lemma SplittingIsIrrelevant(sha: Bytes -> Bytes, f: seq<Frame>, g: seq<Frame>, ending: Ending)
    requires InOrder(f) && HasHeader(f) && InOrder(g) && HasHeader(g)
    requires SameHeader(HeaderOf(f), HeaderOf(g)) && Flatten(Batches(f)) == Flatten(Batches(g))
    ensures Assembled(f) == Assembled(g)
    ensures Accepted(sha, f, ending) <==> Accepted(sha, g, ending)
  {
    hide Valid, Verified;
    SentIsFlattened(f);
    SentIsFlattened(g);
  }

  /**
    An engine minted `engine.version` over its set. A push under that version that carries a preset is
    accepted exactly when the vectors, dim and preset it delivers are the engine's; only a collision of
    the hash could let another set in.
  */
  lemma OnlyTheEngineSetIsAccepted(sha: Bytes -> Bytes, engine: CentroidSet, frames: seq<Frame>)
    requires Valid(engine, VECTOR_DIM) && |engine.vectors| < TWO_32 && engine.version == Version(sha, engine)
    requires InOrder(frames) && HasHeader(frames) && |Sent(frames)| < TWO_32
    requires HeaderOf(frames).version == engine.version && HeaderOf(frames).preset != []
    requires !Collision(sha, engine, Assembled(frames))
    ensures Accepted(sha, frames, Eof) <==> Assembled(frames) == engine
  {
    hide Valid, Verified, Version, Collision, InOrder, HasHeader, Sent;
    if Valid(Assembled(frames), VECTOR_DIM) {
      VersionPinsContent(sha, engine, Assembled(frames), VECTOR_DIM);
    }
  }

  /** Without a preset the tag is taken on trust: different sets pass under one version. */
  lemma LegacyPushIsUnchecked(sha: Bytes -> Bytes, version: string)
    requires version != ""
    ensures exists f: seq<Frame>, g: seq<Frame> ::
              && Accepted(sha, f, Eof) && Accepted(sha, g, Eof)
              && Assembled(f).version == Assembled(g).version == version && Assembled(f) != Assembled(g)
  {
    var zero, one := seq(VECTOR_DIM, _ => 0), seq(VECTOR_DIM, _ => 1);
    assert zero[0] != one[0];
    LegacyStream(sha, version, zero);
    LegacyStream(sha, version, one);
  }

  lemma LegacyStream(sha: Bytes -> Bytes, version: string, v: seq<Word>)
    requires version != "" && |v| == VECTOR_DIM
    ensures var f := [Header(version, VECTOR_DIM, [], 0), Batch([v])];
            Accepted(sha, f, Eof) && Assembled(f) == CentroidSet(version, VECTOR_DIM, [], [v])
  {
    var f := [Header(version, VECTOR_DIM, [], 0), Batch([v])];
    assert f[0].Header? && HasHeader(f) && HeaderOf(f) == f[0];
    assert f[..1] == [f[0]] && [f[0]][..0] == [] && f[..0] == [];
    assert Sent([f[0]]) == Sent([f[0]][..0]) + [];
    assert Sent(f) == Sent(f[..1]) + [v];
    assert HasHeader(f[..1]) by { assert f[..1][0].Header?; }
    assert !OutOfOrder(f, 0) && !OutOfOrder(f, 1);
  }

  /** Routing is decided by the set: two answers to one vector under one set agree. */
  lemma AnswersUnique(mulAdd: MulAdd, cs: Option<CentroidSet>, vec: seq<Word>, a: Embedded, b: Embedded)
    requires Answers(mulAdd, cs, vec, a) && Answers(mulAdd, cs, vec, b)
    ensures a == b
  {
    hide AssignedTo;
    if cs.Some? {
      AssignedUnique(mulAdd, cs.value, vec, a.cluster, b.cluster);
    }
  }

  /**
    A batch of one text and a single call that the same attempt decides: if both are answered, the answers are
    equal; a batch that is answered has a single call that is; and only a reply with more vectors than one,
    which the single call cuts down to the first, is answered the one way and refused the other.
  */
  lemma BatchOfOneIsSingle(
      mulAdd: MulAdd, cs: Option<CentroidSet>, a: Attempt,
      many: Result<seq<Embedded>, RpcError>, one: Result<Embedded, RpcError>)
    requires Settled(mulAdd, cs, 1, a, many) && SettledOne(mulAdd, cs, a, one)
    ensures many.Ok? ==> one.Ok? && many.value == [one.value]
    ensures one.Ok? && many.Err? <==> a.Replied? && a.reply.Data? && |a.reply.vectors| > 1
    ensures many.Err? && one.Err? ==>
              || many.error == one.error
              || (many.error == BackendFailed(SizeMismatch(1, 0)) && one.error == BackendFailed(EmptyResponse))
  {
    hide AssignedTo;
    if many.Ok? {
      var vecs := a.reply.vectors;
      assert Answers(mulAdd, cs, vecs[0], many.value[0]);
      AnswersUnique(mulAdd, cs, vecs[0], many.value[0], one.value);
      assert many.value == [many.value[0]];
    }
  }
}
