/**
  Self-bootstrap: downloading, unpacking and remembering the two artifacts, with a process crash possible
  before any file operation. The install lock makes boots follow one another.

  A char stands for a byte. `digest` is the lower-case hex SHA-256 of a file's bytes and `unpack` what gzip
  and tar make of an archive, any functions both. Each attempt's answer from the network is a parameter.
*/
module Install {
  import opened Wrappers
  import opened FilePath

  type Data = string

  // ----- the manifest -----

  datatype ServerSpec = ServerSpec(url: string, sha256: string, size: int, extract: string, exec: string)

  datatype ArtifactSpec = ArtifactSpec(url: string, sha256: string, size: int)

  /** `variant` is the model the configuration picked. */
  datatype Manifest = Manifest(server: ServerSpec, model: ArtifactSpec, variant: string)

  /** The directories under the daemon's home, as absolute canonical names. */
  datatype Layout = Layout(llamaDir: seq<string>, cache: seq<string>, models: seq<string>)

  predicate Rooted(l: Layout) {
    Names(l.llamaDir) && Names(l.cache) && Names(l.models)
  }

  const PARTIAL := ".partial"
  const EXTRACT_PARTIAL := ".extract.partial"

  function Under(dir: seq<string>, name: string): string {
    Join(Render(true, dir), name)
  }

  function ServerTarget(l: Layout, spec: ServerSpec): string {
    Under(l.llamaDir, if spec.exec == "" then "llama-server" else spec.exec)
  }

  function Marker(l: Layout): string {
    Under(l.llamaDir, ".llama_server.sha256")
  }

  function Tarball(l: Layout): string {
    Under(l.cache, "llama-server.tar.gz")
  }

  function ModelPath(l: Layout, variant: string): string {
    Under(l.models, variant + ".gguf")
  }

  // ----- hashes and archives -----

  function Lower(c: char): char {
    if 'A' <= c <= 'Z' then c - 'A' + 'a' else c
  }

  /** strings.EqualFold on hex digits. */
  predicate EqualFold(a: string, b: string) {
    |a| == |b| && forall i :: 0 <= i < |a| ==> Lower(a[i]) == Lower(b[i])
  }

  /** Two digits agree if they are the same, or one is the other's capital. */
  lemma FoldIgnoresCase(a: string, b: string)
    ensures EqualFold(a, b) <==> |a| == |b| && forall i :: 0 <= i < |a| ==>
              || a[i] == b[i]
              || ('A' <= a[i] <= 'Z' && b[i] as int == a[i] as int + 32)
              || ('A' <= b[i] <= 'Z' && a[i] as int == b[i] as int + 32)
  {
    if |a| == |b| {
      forall i | 0 <= i < |a|
        ensures Lower(a[i]) == Lower(b[i]) <==>
                  || a[i] == b[i]
                  || ('A' <= a[i] <= 'Z' && b[i] as int == a[i] as int + 32)
                  || ('A' <= b[i] <= 'Z' && a[i] as int == b[i] as int + 32)
      {
      }
    }
  }

  datatype EntryKind = Directory | Regular | Other

  /** `readable` false: the entry's bytes end in an error. */
  datatype Entry = Entry(kind: EntryKind, name: string, data: Data, readable: bool)

  /** `intact` false: reading a header after the last entry fails. */
  datatype Archive = Archive(entries: seq<Entry>, intact: bool)

  predicate Unpacked(e: Entry) {
    e.kind == Regular && IsLocal(e.name)
  }

  /** The entries unpacked of the first `n` can be read in full. */
  predicate Readable(entries: seq<Entry>, n: nat)
    requires n <= |entries|
  {
    forall i :: 0 <= i < n && Unpacked(entries[i]) ==> entries[i].readable
  }

  /** gzip and tar read the archive to its end, and every entry that is unpacked in full. */
  predicate Opens(a: Option<Archive>) {
    a.Some? && a.value.intact && Readable(a.value.entries, |a.value.entries|)
  }

  lemma ReadableStep(entries: seq<Entry>, k: nat)
    requires k < |entries|
    ensures Readable(entries, k + 1) <==> Readable(entries, k) && (Unpacked(entries[k]) ==> entries[k].readable)
    ensures Readable(entries, |entries|) ==> Readable(entries, k + 1)
  {
    hide Unpacked;
  }

  /** Entry `i` puts `content` at `path`. */
  predicate Puts(entries: seq<Entry>, dir: seq<string>, i: nat, path: string, content: Data) {
    i < |entries| && Unpacked(entries[i]) && entries[i].data == content && Under(dir, entries[i].name) == path
  }

  /** No entry from `i + 1` up to `n` writes over what entry `i` wrote, with its file or its temporary file. */
  predicate Undisturbed(entries: seq<Entry>, dir: seq<string>, i: nat, n: nat)
    requires i < n <= |entries|
  {
    forall j :: i < j < n && Unpacked(entries[j]) ==>
      && Under(dir, entries[j].name) != Under(dir, entries[i].name)
      && Under(dir, entries[j].name) + EXTRACT_PARTIAL != Under(dir, entries[i].name)
  }

  function Destinations(dir: seq<string>, entries: seq<Entry>): seq<string> {
    if entries == [] then []
    else
      var e := entries[|entries| - 1];
      Destinations(dir, entries[..|entries| - 1]) + (if Unpacked(e) then [Under(dir, e.name)] else [])
  }

  // ----- the disk -----

  predicate HasSuffix(s: string, suffix: string) {
    |s| >= |suffix| && s[|s| - |suffix|..] == suffix
  }

  lemma SuffixOfAppend(s: string, suffix: string)
    ensures HasSuffix(s + suffix, suffix)
  {
    assert (s + suffix)[|s|..] == suffix;
  }

  lemma ExtractPartialIsPartial(s: string)
    ensures HasSuffix(s + EXTRACT_PARTIAL, PARTIAL)
  {
    assert (s + EXTRACT_PARTIAL)[|s| + 8..] == EXTRACT_PARTIAL[8..] == PARTIAL;
  }

  type Files = map<string, Data>

  predicate Kept(before: Files, now: Files, path: string) {
    (path in before <==> path in now) && (path in before ==> before[path] == now[path])
  }

  /** Nothing changed but the paths in `except`. */
  ghost predicate Same(before: Files, now: Files, except: set<string>) {
    forall p :: p !in except ==> Kept(before, now, p)
  }

  lemma SameThen(a: Files, b: Files, c: Files, s: set<string>, t: set<string>, all: set<string>)
    requires Same(a, b, s) && Same(b, c, t) && s <= all && t <= all
    ensures Same(a, c, all)
  {
    forall p | p !in all
      ensures Kept(a, c, p)
    {
      assert Kept(a, b, p) && Kept(b, c, p);
    }
  }

  /** The name under which some entry is written before it is renamed into place. */
  ghost predicate TempOf(entries: seq<Entry>, dir: seq<string>, p: string) {
    exists i :: 0 <= i < |entries| && Unpacked(entries[i]) && p == Under(dir, entries[i].name) + EXTRACT_PARTIAL
  }

  /** The path is as it was, or some entry's temporary name, or holds in full what some entry puts there. */
  ghost predicate KeptOrPut(before: Files, now: Files, dir: seq<string>, entries: seq<Entry>, p: string) {
    || Kept(before, now, p)
    || TempOf(entries, dir, p)
    || (p in now && exists i :: Puts(entries, dir, i, p, now[p]))
  }

  ghost predicate Unpacking(before: Files, now: Files, dir: seq<string>, entries: seq<Entry>) {
    forall p :: KeptOrPut(before, now, dir, entries, p)
  }

  /** Each of the first `n` entries that nothing later overwrote is in place. */
  predicate InPlace(files: Files, dir: seq<string>, entries: seq<Entry>, n: nat)
    requires n <= |entries|
  {
    forall i :: 0 <= i < n && Unpacked(entries[i]) && Undisturbed(entries, dir, i, n) ==>
      Under(dir, entries[i].name) in files && files[Under(dir, entries[i].name)] == entries[i].data
  }

  lemma TempIsPartial(entries: seq<Entry>, dir: seq<string>, p: string)
    requires TempOf(entries, dir, p)
    ensures HasSuffix(p, PARTIAL)
  {
    hide HasSuffix, Under, Unpacked;
    var i :| 0 <= i < |entries| && Unpacked(entries[i]) && p == Under(dir, entries[i].name) + EXTRACT_PARTIAL;
    ExtractPartialIsPartial(Under(dir, entries[i].name));
  }

  /** A name below the directory, or such a name with the temporary suffix. */
  ghost predicate Within(dir: seq<string>, p: string) {
    exists rest: seq<string> :: Names(rest)
        && (p == Render(true, dir + rest) || p == Render(true, dir + rest) + EXTRACT_PARTIAL)
  }

  /**
    Whatever an archive holds, unpacking it changes no path outside the destination. (An entry named like the
    destination itself has its temporary file beside it.)
  */
  lemma UnpackingStaysInside(before: Files, now: Files, dir: seq<string>, entries: seq<Entry>, p: string)
    requires Names(dir) && Unpacking(before, now, dir, entries) && !Kept(before, now, p)
    ensures Within(dir, p)
  {
    hide Kept, Names, Render, Join, IsLocal;
    assert KeptOrPut(before, now, dir, entries, p);
    var i: nat :| i < |entries| && Unpacked(entries[i])
                  && (p == Under(dir, entries[i].name) + EXTRACT_PARTIAL || p == Under(dir, entries[i].name));
    LocalStaysInside(dir, entries[i].name);
    var rest: seq<string> :| Names(rest) && Join(Render(true, dir), entries[i].name) == Render(true, dir + rest);
  }

  lemma StillUnpacking(before: Files, was: Files, now: Files, dir: seq<string>, entries: seq<Entry>, k: nat)
    requires k < |entries| && Unpacked(entries[k]) && Unpacking(before, was, dir, entries)
    requires var dest := Under(dir, entries[k].name);
             && Same(was, now, {dest, dest + EXTRACT_PARTIAL})
             && (Kept(was, now, dest) || (dest in now && now[dest] == entries[k].data))
    ensures Unpacking(before, now, dir, entries)
  {
    hide IsLocal, Under;
    var dest := Under(dir, entries[k].name);
    assert TempOf(entries, dir, dest + EXTRACT_PARTIAL);
    forall p
      ensures KeptOrPut(before, now, dir, entries, p)
    {
      assert KeptOrPut(before, was, dir, entries, p);
      if p == dest && !Kept(was, now, dest) {
        assert Puts(entries, dir, k, p, now[p]);
      } else if p != dest + EXTRACT_PARTIAL {
        assert Kept(was, now, p);
      }
    }
  }

  lemma OneMoreInPlace(was: Files, now: Files, dir: seq<string>, entries: seq<Entry>, k: nat)
    requires k < |entries| && Unpacked(entries[k]) && InPlace(was, dir, entries, k)
    requires var dest := Under(dir, entries[k].name);
             Same(was, now, {dest, dest + EXTRACT_PARTIAL}) && dest in now && now[dest] == entries[k].data
    ensures InPlace(now, dir, entries, k + 1)
  {
    hide IsLocal, Under;
    forall i | 0 <= i < k && Unpacked(entries[i]) && Undisturbed(entries, dir, i, k + 1)
      ensures Under(dir, entries[i].name) in now && now[Under(dir, entries[i].name)] == entries[i].data
    {
      assert Undisturbed(entries, dir, i, k);
      assert Kept(was, now, Under(dir, entries[i].name));
    }
  }

  lemma NothingUnpackedYet(files: Files, dir: seq<string>, entries: seq<Entry>)
    ensures Unpacking(files, files, dir, entries)
  {
  }

  lemma SkippedInPlace(files: Files, dir: seq<string>, entries: seq<Entry>, k: nat)
    requires k < |entries| && !Unpacked(entries[k]) && InPlace(files, dir, entries, k)
    ensures InPlace(files, dir, entries, k + 1)
  {
    hide Under, Unpacked;
    forall i | 0 <= i < k && Undisturbed(entries, dir, i, k + 1)
      ensures Undisturbed(entries, dir, i, k)
    {
    }
  }

  lemma DestinationsStep(dir: seq<string>, entries: seq<Entry>, k: nat)
    requires k < |entries|
    ensures Destinations(dir, entries[..k + 1]) ==
            Destinations(dir, entries[..k]) + (if Unpacked(entries[k]) then [Under(dir, entries[k].name)] else [])
  {
    assert entries[..k + 1][..k] == entries[..k];
  }

  // ----- where an installed file comes from -----

  /** `path` with this content is what the manifest's llama-server artifact installs. */
  ghost predicate Served(digest: Data -> string, unpack: Data -> Option<Archive>, l: Layout, spec: ServerSpec,
      path: string, content: Data)
  {
    if spec.extract == "" then path == ServerTarget(l, spec) && Matches(digest, spec.sha256, content)
    else
      spec.extract == "tar.gz"
      && exists archive: Data, i: nat ::
        && Matches(digest, spec.sha256, archive) && unpack(archive).Some?
        && Puts(unpack(archive).value.entries, l.llamaDir, i, path, content)
  }

  /** Files the installer keeps for itself. */
  predicate Private(l: Layout, p: string) {
    HasSuffix(p, PARTIAL) || p == Marker(l) || p == Tarball(l)
  }

  ghost predicate KeptOrServed(digest: Data -> string, unpack: Data -> Option<Archive>, before: Files, now: Files,
                               l: Layout, spec: ServerSpec, p: string)
  {
    Kept(before, now, p) || Private(l, p) || (p in now && Served(digest, unpack, l, spec, p, now[p]))
  }

  ghost predicate Installing(digest: Data -> string, unpack: Data -> Option<Archive>, before: Files, now: Files,
                             l: Layout, spec: ServerSpec)
  {
    forall p :: KeptOrServed(digest, unpack, before, now, l, spec, p)
  }

  /** A matching marker beside an executable vouches for it. */
  ghost predicate Honest(digest: Data -> string, unpack: Data -> Option<Archive>, files: Files, l: Layout,
      spec: ServerSpec)
  {
    var target := ServerTarget(l, spec);
    Marker(l) in files && files[Marker(l)] == spec.sha256 && target in files ==>
      Served(digest, unpack, l, spec, target, files[target])
  }

  /**
    What the manifest's publisher sees to: the hash is a hash, the executable is not one of the installer's
    own files, and an archive with that hash holds the executable and leaves the marker alone.
  */
  ghost predicate WellMade(digest: Data -> string, unpack: Data -> Option<Archive>, l: Layout, spec: ServerSpec) {
    && !Private(l, ServerTarget(l, spec))
    && |spec.sha256| == HASH_LENGTH
    && (spec.extract == "tar.gz" ==>
          forall archive: Data :: Matches(digest, spec.sha256, archive) && unpack(archive).Some? ==>
            && (exists i ::
                  0 <= i < |unpack(archive).value.entries|
                  && PathOf(unpack(archive).value.entries, l.llamaDir, i, ServerTarget(l, spec)))
            && (forall i :: 0 <= i < |unpack(archive).value.entries| ==>
                !PathOf(unpack(archive).value.entries, l.llamaDir, i, Marker(l))))
  }

  predicate PathOf(entries: seq<Entry>, dir: seq<string>, i: nat, path: string) {
    i < |entries| && Unpacked(entries[i]) && Under(dir, entries[i].name) == path
  }

  /** If some entry is for `path`, and `path` is no temporary name, the last of them is in place in the end. */
  lemma {:induction false} LastEntryInPlace(files: Files, dir: seq<string>, entries: seq<Entry>, i: nat, path: string)
      returns (last: nat)
    requires InPlace(files, dir, entries, |entries|) && PathOf(entries, dir, i, path) && !HasSuffix(path, PARTIAL)
    ensures path in files && Puts(entries, dir, last, path, files[path])
    decreases |entries| - i
  {
    if j :| i < j < |entries| && PathOf(entries, dir, j, path) {
      last := LastEntryInPlace(files, dir, entries, j, path);
    } else {
      last := i;
      forall j | i < j < |entries| && Unpacked(entries[j])
        ensures Under(dir, entries[j].name) != path && Under(dir, entries[j].name) + EXTRACT_PARTIAL != path
      {
        assert !PathOf(entries, dir, j, path);
        ExtractPartialIsPartial(Under(dir, entries[j].name));
      }
      assert Undisturbed(entries, dir, i, |entries|);
    }
  }

  lemma UnpackingServes(digest: Data -> string, unpack: Data -> Option<Archive>, a: Files, b: Files, c: Files,
                        l: Layout, spec: ServerSpec, archive: Data)
    requires spec.extract == "tar.gz" && Matches(digest, spec.sha256, archive) && unpack(archive).Some?
    requires Same(a, b, {Tarball(l), Tarball(l) + PARTIAL})
              && Unpacking(b, c, l.llamaDir, unpack(archive).value.entries)
    ensures Installing(digest, unpack, a, c, l, spec)
  {
    hide HasSuffix, Under, Matches, Puts;
    SuffixOfAppend(Tarball(l), PARTIAL);
    forall p
      ensures KeptOrServed(digest, unpack, a, c, l, spec, p)
    {
      assert KeptOrPut(b, c, l.llamaDir, unpack(archive).value.entries, p);
      if TempOf(unpack(archive).value.entries, l.llamaDir, p) {
        TempIsPartial(unpack(archive).value.entries, l.llamaDir, p);
      }
      if p != Tarball(l) && p != Tarball(l) + PARTIAL {
        assert Kept(a, b, p);
      }
    }
  }

  /** A whole archive with the manifest's hash has put the executable in place. */
  lemma TargetInPlace(digest: Data -> string, unpack: Data -> Option<Archive>, files: Files, l: Layout,
      spec: ServerSpec, archive: Data)
    requires spec.extract == "tar.gz" && Matches(digest, spec.sha256, archive) && unpack(archive).Some?
    requires WellMade(digest, unpack, l, spec)
    requires var entries := unpack(archive).value.entries; InPlace(files, l.llamaDir, entries, |entries|)
    ensures var t := ServerTarget(l, spec); t in files && Served(digest, unpack, l, spec, t, files[t])
  {
    hide HasSuffix, Under, Matches, InPlace, Puts, PathOf;
    var entries, target := unpack(archive).value.entries, ServerTarget(l, spec);
    var i :| 0 <= i < |entries| && PathOf(entries, l.llamaDir, i, target);
    var last := LastEntryInPlace(files, l.llamaDir, entries, i, target);
  }

  /** Unpacking an archive that leaves the marker alone keeps it. */
  lemma UnpackingKeepsMarker(before: Files, now: Files, l: Layout, entries: seq<Entry>)
    requires Rooted(l) && Unpacking(before, now, l.llamaDir, entries)
    requires forall i :: 0 <= i < |entries| ==> !PathOf(entries, l.llamaDir, i, Marker(l))
    ensures Kept(before, now, Marker(l))
  {
    hide Under, Rooted, HasSuffix;
    OwnNames(l);
    assert KeptOrPut(before, now, l.llamaDir, entries, Marker(l));
    if TempOf(entries, l.llamaDir, Marker(l)) {
      TempIsPartial(entries, l.llamaDir, Marker(l));
    }
    forall i: nat
      ensures Marker(l) in now ==> !Puts(entries, l.llamaDir, i, Marker(l), now[Marker(l)])
    {
      if i < |entries| {
        assert !PathOf(entries, l.llamaDir, i, Marker(l));
      }
    }
  }

  lemma {:induction false} JoinEndsWith(segs: seq<string>)
    requires segs != [] && Last(segs) != ""
    ensures JoinSlash(segs) != "" && Last(JoinSlash(segs)) == Last(Last(segs))
  {
  }

  lemma SuffixLast(s: string, suffix: string)
    requires HasSuffix(s, suffix) && suffix != ""
    ensures s != "" && Last(s) == Last(suffix)
  {
  }

  lemma UnderName(dir: seq<string>, x: string)
    requires Names(dir) && Name(x)
    ensures Under(dir, x) != "" && Last(Under(dir, x)) == Last(x)
  {
    JoinOfName(dir, x);
    JoinEndsWith(dir + [x]);
  }

  /** The marker is neither a temporary name nor the archive's. */
  lemma OwnNames(l: Layout)
    requires Rooted(l)
    ensures !HasSuffix(Marker(l), PARTIAL) && Marker(l) != Tarball(l)
  {
    hide Under;
    UnderName(l.llamaDir, ".llama_server.sha256");
    UnderName(l.cache, "llama-server.tar.gz");
    if HasSuffix(Marker(l), PARTIAL) {
      SuffixLast(Marker(l), PARTIAL);
    }
  }

  /** A change to one of the installer's own files installs nothing. */
  lemma InstallingThen(digest: Data -> string, unpack: Data -> Option<Archive>, a: Files, b: Files, c: Files,
                       l: Layout, spec: ServerSpec, own: string)
    requires Installing(digest, unpack, a, b, l, spec) && Same(b, c, {own}) && Private(l, own)
    ensures Installing(digest, unpack, a, c, l, spec)
  {
    hide Private, Served;
    forall p
      ensures KeptOrServed(digest, unpack, a, c, l, spec, p)
    {
      assert KeptOrServed(digest, unpack, a, b, l, spec, p);
      if p != own {
        assert Kept(b, c, p);
      }
    }
  }

  /** While the marker is kept, installing keeps it honest. */
  lemma HonestKept(digest: Data -> string, unpack: Data -> Option<Archive>, a: Files, b: Files, l: Layout,
      spec: ServerSpec)
    requires !Private(l, ServerTarget(l, spec)) && Kept(a, b, Marker(l))
    requires Honest(digest, unpack, a, l, spec) && Installing(digest, unpack, a, b, l, spec)
    ensures Honest(digest, unpack, b, l, spec)
  {
    hide Private, Served, Under;
    assert KeptOrServed(digest, unpack, a, b, l, spec, ServerTarget(l, spec));
  }

  /** The marker is untouched, or holds the beginning of this manifest's hash. */
  predicate MarkerFrom(before: Files, now: Files, l: Layout, spec: ServerSpec) {
    Kept(before, now, Marker(l)) || (Marker(l) in now && now[Marker(l)] <= spec.sha256)
  }

  // ----- many boots -----

  /** Also the model's file is none of llama-server's. */
  ghost predicate WellMadeManifest(digest: Data -> string, unpack: Data -> Option<Archive>, l: Layout, m: Manifest) {
    && WellMade(digest, unpack, l, m.server)
    && ModelPath(l, m.variant) != ServerTarget(l, m.server)
    && ModelPath(l, m.variant) != Marker(l)
  }

  /** The same artifact, unpacked alike, with the same executable; where it is fetched from does not matter. */
  predicate SameServer(a: ServerSpec, b: ServerSpec) {
    a.sha256 == b.sha256 && a.extract == b.extract && a.exec == b.exec
  }

  /** Once the manifest has moved on to another llama-server, it does not come back to an earlier one. */
  predicate NoRollback(manifests: seq<Manifest>) {
    forall i, j, k :: 0 <= i <= j <= k < |manifests| && manifests[i].server.sha256 == manifests[k].server.sha256 ==>
      SameServer(manifests[j].server, manifests[k].server)
  }

  lemma HonestForSame(digest: Data -> string, unpack: Data -> Option<Archive>, files: Files, l: Layout, a: ServerSpec,
      b: ServerSpec)
    requires SameServer(a, b) && Honest(digest, unpack, files, l, a)
    ensures Honest(digest, unpack, files, l, b)
  {
    hide Under, Puts, Matches;
  }

  /**
    Without that the marker cannot be trusted: after an upgrade to `b` that died before its marker was written,
    a disk may hold the marker of `a` beside the executable of `b`, and a boot under `a` would accept it. All that
    is known of the disk after boots holds of this one too; `RollbackRun` is a run that leads there.
  */
  lemma RollbackFindsAStaleMarker(digest: Data -> string, unpack: Data -> Option<Archive>, l: Layout, a: Manifest,
      b: Manifest, x: Data, y: Data)
    requires Rooted(l) && a.server.extract == b.server.extract == "" && a.server.exec == b.server.exec
    requires a.server.sha256 == digest(x) && b.server.sha256 == digest(y) && !EqualFold(digest(y), digest(x))
    requires !Private(l, ServerTarget(l, a.server))
    ensures exists before: Files, files: Files ::
              && Provenance(digest, unpack, before, l, [a, b], 1) && Honest(digest, unpack, before, l, a.server)
              && Installing(digest, unpack, before, files, l, b.server) && Kept(before, files, Marker(l))
              && Provenance(digest, unpack, files, l, [a, b], 2) && MarkerKnown(files, l, [a, b], 2)
              && Honest(digest, unpack, files, l, b.server) && !Honest(digest, unpack, files, l, a.server)
  {
    hide Under, Rooted, HasSuffix;
    var target, manifests := ServerTarget(l, a.server), [a, b];
    assert EqualFold(digest(x), digest(x)) && EqualFold(digest(y), digest(y)) && digest(x) != digest(y);
    var before: Files := map[Marker(l) := digest(x), target := x];
    var files: Files := map[Marker(l) := digest(x), target := y];
    assert target == ServerTarget(l, b.server) && target != Marker(l);
    assert manifests[0] == a && manifests[1] == b;
    assert Served(digest, unpack, l, a.server, target, x) && Served(digest, unpack, l, b.server, target, y);
    assert forall p :: p in before ==> FileKnown(digest, unpack, before, l, manifests, 1, p);
    assert forall p :: p in files ==> FileKnown(digest, unpack, files, l, manifests, 2, p);
    assert forall p :: KeptOrServed(digest, unpack, before, files, l, b.server, p);
    assert files[Marker(l)] <= manifests[0].server.sha256;
    assert MarkerKnown(files, l, manifests, 2);
    assert Honest(digest, unpack, before, l, a.server) && Honest(digest, unpack, files, l, b.server);
    assert !Honest(digest, unpack, files, l, a.server);
  }

  /** What stood in the two files when a boot returned their paths. */
  datatype Booted = Booted(server: Option<Data>, model: Data)

  /** The marker, if there is one, comes from one of the first `n` manifests. */
  predicate MarkerKnown(files: Files, l: Layout, manifests: seq<Manifest>, n: nat)
    requires n <= |manifests|
  {
    Marker(l) in files ==> exists j :: 0 <= j < n && files[Marker(l)] <= manifests[j].server.sha256
  }

  /** Every file that is neither the installer's own nor a model comes from one of the first `n` manifests. */
  ghost predicate Provenance(digest: Data -> string, unpack: Data -> Option<Archive>, files: Files, l: Layout,
      manifests: seq<Manifest>, n: nat)
    requires n <= |manifests|
  {
    forall p :: p in files ==> FileKnown(digest, unpack, files, l, manifests, n, p)
  }

  ghost predicate FileKnown(digest: Data -> string, unpack: Data -> Option<Archive>, files: Files, l: Layout,
      manifests: seq<Manifest>, n: nat, p: string)
    requires n <= |manifests| && p in files
  {
    || Private(l, p)
    || exists j :: 0 <= j < n && (p == ModelPath(l, manifests[j].variant)
        || Served(digest, unpack, l, manifests[j].server, p, files[p]))
  }

  /** At the start of the next boot a matching marker can be trusted. */
  lemma HonestAtBoot(digest: Data -> string, unpack: Data -> Option<Archive>, files: Files, l: Layout,
      manifests: seq<Manifest>, n: nat)
    requires n < |manifests| && NoRollback(manifests) && MarkerKnown(files, l, manifests, n)
    requires forall k :: 0 <= k < |manifests| ==> |manifests[k].server.sha256| == HASH_LENGTH
    requires n > 0 ==> Honest(digest, unpack, files, l, manifests[n - 1].server)
    ensures Honest(digest, unpack, files, l, manifests[n].server)
  {
    hide Served, ServerTarget, Marker;
    if Marker(l) in files && files[Marker(l)] == manifests[n].server.sha256 {
      var j :| 0 <= j < n && files[Marker(l)] <= manifests[j].server.sha256;
      assert manifests[j].server.sha256 == manifests[n].server.sha256;
      assert SameServer(manifests[n - 1].server, manifests[n].server);
      HonestForSame(digest, unpack, files, l, manifests[n - 1].server, manifests[n].server);
    }
  }

  lemma MarkerStaysKnown(a: Files, b: Files, c: Files, l: Layout, manifests: seq<Manifest>, n: nat)
    requires n < |manifests| && MarkerKnown(a, l, manifests, n) && MarkerFrom(a, b, l, manifests[n].server)
    requires Kept(b, c, Marker(l))
    ensures MarkerKnown(c, l, manifests, n + 1)
  {
    hide Marker;
  }

  lemma ProvenanceKept(digest: Data -> string, unpack: Data -> Option<Archive>, a: Files, b: Files, c: Files,
                       l: Layout, manifests: seq<Manifest>, n: nat)
    requires n < |manifests| && Provenance(digest, unpack, a, l, manifests, n)
    requires Installing(digest, unpack, a, b, l, manifests[n].server)
    requires var model := ModelPath(l, manifests[n].variant); Same(b, c, {model, model + PARTIAL})
    ensures Provenance(digest, unpack, c, l, manifests, n + 1)
  {
    hide Served, ModelPath;
    var model := ModelPath(l, manifests[n].variant);
    SuffixOfAppend(model, PARTIAL);
    forall p | p in c
      ensures FileKnown(digest, unpack, c, l, manifests, n + 1, p)
    {
      if p != model && p != model + PARTIAL {
        assert Kept(b, c, p);
        assert KeptOrServed(digest, unpack, a, b, l, manifests[n].server, p);
      }
    }
  }

  lemma WellMadeHashes(digest: Data -> string, unpack: Data -> Option<Archive>, l: Layout, manifests: seq<Manifest>)
    requires forall k :: 0 <= k < |manifests| ==> WellMadeManifest(digest, unpack, l, manifests[k])
    ensures forall k :: 0 <= k < |manifests| ==> |manifests[k].server.sha256| == HASH_LENGTH
  {
  }

  lemma FreshDisk(digest: Data -> string, unpack: Data -> Option<Archive>, files: Files, l: Layout,
      manifests: seq<Manifest>)
    requires files == map[]
    ensures MarkerKnown(files, l, manifests, 0) && Provenance(digest, unpack, files, l, manifests, 0)
  {
  }

  /** Later manifests do not matter to what is known of the first `n`. */
  lemma KnownPrefix(digest: Data -> string, unpack: Data -> Option<Archive>, files: Files, l: Layout,
      manifests: seq<Manifest>, n: nat, m: nat)
    requires n <= m <= |manifests|
    ensures MarkerKnown(files, l, manifests[..m], n) <==> MarkerKnown(files, l, manifests, n)
    ensures Provenance(digest, unpack, files, l, manifests[..m], n) <==>
              Provenance(digest, unpack, files, l, manifests, n)
  {
    hide Served, Marker, ModelPath, Private;
    if MarkerKnown(files, l, manifests, n) && Marker(l) in files {
      var j :| 0 <= j < n && files[Marker(l)] <= manifests[j].server.sha256;
      assert files[Marker(l)] <= manifests[..m][j].server.sha256;
    }
    forall p | p in files
      ensures FileKnown(digest, unpack, files, l, manifests[..m], n, p) <==>
                FileKnown(digest, unpack, files, l, manifests, n, p)
    {
      FileKnownPrefix(digest, unpack, files, l, manifests, n, m, p);
    }
  }

  lemma FileKnownPrefix(digest: Data -> string, unpack: Data -> Option<Archive>, files: Files, l: Layout,
      manifests: seq<Manifest>, n: nat, m: nat, p: string)
    requires n <= m <= |manifests| && p in files
    ensures FileKnown(digest, unpack, files, l, manifests[..m], n, p) <==>
              FileKnown(digest, unpack, files, l, manifests, n, p)
  {
    hide Served, ModelPath, Private;
    assert forall j :: 0 <= j < n ==> manifests[..m][j] == manifests[j];
  }

  lemma ModelLeavesServer(a: Files, b: Files, l: Layout, m: Manifest)
    requires Rooted(l) && !Private(l, ServerTarget(l, m.server))
    requires ModelPath(l, m.variant) != ServerTarget(l, m.server) && ModelPath(l, m.variant) != Marker(l)
    requires Same(a, b, {ModelPath(l, m.variant), ModelPath(l, m.variant) + PARTIAL})
    ensures Kept(a, b, Marker(l)) && Kept(a, b, ServerTarget(l, m.server))
  {
    hide HasSuffix, Under, Rooted;
    OwnNames(l);
    SuffixOfAppend(ModelPath(l, m.variant), PARTIAL);
  }

  lemma HonestOfKept(digest: Data -> string, unpack: Data -> Option<Archive>, a: Files, b: Files, l: Layout,
      spec: ServerSpec)
    requires Honest(digest, unpack, a, l, spec) && Kept(a, b, Marker(l)) && Kept(a, b, ServerTarget(l, spec))
    ensures Honest(digest, unpack, b, l, spec)
  {
    hide Served, Under;
  }

  /**
    With one manifest, whatever its archive holds, a matching marker beside the executable vouches for it;
    the executable's path must only not be one of the installer's own.
  */
  lemma MarkerVouchesForOneManifest(digest: Data -> string, unpack: Data -> Option<Archive>, files: Files, l: Layout,
                                    manifests: seq<Manifest>, m: Manifest)
    requires Provenance(digest, unpack, files, l, manifests, |manifests|)
    requires forall k :: 0 <= k < |manifests| ==> manifests[k] == m
    requires !Private(l, ServerTarget(l, m.server)) && ServerTarget(l, m.server) != ModelPath(l, m.variant)
    ensures Honest(digest, unpack, files, l, m.server)
  {
    hide Served, Private, ModelPath;
    var target := ServerTarget(l, m.server);
    if target in files {
      assert FileKnown(digest, unpack, files, l, manifests, |manifests|, target);
    }
  }

  /** What a server sends for one attempt; `length` is -1 if it does not say. */
  datatype Response = NoAnswer | Answer(status: int, length: int, chunks: seq<Data>, complete: bool)

  function Concat(chunks: seq<Data>): Data {
    if chunks == [] then "" else Concat(chunks[..|chunks| - 1]) + chunks[|chunks| - 1]
  }

  /** What concerns llama-server, or the model. */
  function Part<T>(f: (bool, nat) -> T, server: bool): nat -> T {
    (a: nat) => f(server, a)
  }

  /** What concerns the `k`-th boot. */
  function PartOfBoot<T>(f: (nat, bool, nat) -> T, k: nat): (bool, nat) -> T {
    (server: bool, a: nat) => f(k, server, a)
  }

  const MAX_DOWNLOAD_ATTEMPTS := 3

  /** The hex digits of a SHA-256. */
  const HASH_LENGTH := 64

  /** `content` has the hash that the manifest asks for. */
  predicate Matches(digest: Data -> string, sha256: string, content: Data) {
    EqualFold(digest(content), sha256)
  }

  /** What becomes of a file operation: the process can also die before it. */
  datatype Fate = Works | Fails | Dies

  /** The number of writes that a stream of chunks takes. */
  function Writes(chunks: seq<Data>): nat {
    if chunks == [] then 0
    else Writes(chunks[..|chunks| - 1]) + if |chunks[|chunks| - 1]| > 0 then 1 else 0
  }

  lemma {:induction false} WritesOfPrefix(chunks: seq<Data>, i: nat)
    requires i <= |chunks|
    ensures Writes(chunks[..i]) <= Writes(chunks)
    decreases |chunks|
  {
    if i < |chunks| {
      WritesOfPrefix(chunks[..|chunks| - 1], i);
      assert chunks[..|chunks| - 1][..i] == chunks[..i];
    } else {
      assert chunks[..i] == chunks;
    }
  }

  /** The response brings the whole of a content with the wanted hash and size. */
  predicate Delivers(digest: Data -> string, url: string, sha256: string, size: int, r: Response) {
    && url != "" && sha256 != "" && r.Answer? && r.status == 200 && r.complete
    && (size > 0 && r.length > 0 ==> r.length == size)
    && Matches(digest, sha256, Concat(r.chunks)) && (size > 0 ==> |Concat(r.chunks)| == size)
  }

  /** The attempt that succeeds: the first whose response delivers, if the caller has not given up before. */
  predicate Arrives(digest: Data -> string, url: string, sha256: string, size: int, net: nat -> Response,
      cancelled: nat -> bool, n: nat)
  {
    && n < 3 && Delivers(digest, url, sha256, size, net(n))
    && forall k :: 0 <= k < n ==> !Delivers(digest, url, sha256, size, net(k)) && !cancelled(k)
  }

  /** A download: the file is in place and its temporary name is gone. */
  function Downloaded(files: Files, dest: string, content: Data): Files {
    (files - {dest + PARTIAL})[dest := content]
  }

  lemma SameMinus(before: Files, now: Files, p: string)
    requires Same(before, now, {p})
    ensures before - {p} == now - {p}
  {
    assert forall q :: q != p ==> Kept(before, now, q);
  }

  lemma SamePut(before: Files, now: Files, p: string)
    requires Same(before, now, {p}) && p in now
    ensures now == before[p := now[p]]
  {
    forall q
      ensures q in now <==> q in before[p := now[p]]
      ensures q in now ==> now[q] == before[p := now[p]][q]
    {
      assert q != p ==> Kept(before, now, q);
    }
  }

  /**
    `crashed`: the process is gone, and what the code would still do has no effect. `fate(k)` is what becomes
    of the `k`-th operation, `ops` the number of operations so far; an append that fails or is cut off leaves
    any prefix.
  */
  class Disk {
    const digest: Data -> string
    const unpack: Data -> Option<Archive>
    const fate: nat -> Fate
    var files: Files
    var crashed: bool
    var ops: nat

    constructor (digest: Data -> string, unpack: Data -> Option<Archive>, fate: nat -> Fate)
      ensures this.digest == digest && this.unpack == unpack && this.fate == fate
      ensures files == map[] && !crashed && ops == 0
    {
      this.digest, this.unpack, this.fate, files, crashed, ops := digest, unpack, fate, map[], false, 0;
    }

    /** The next `n` operations from the `from`-th all work. */
    predicate Smooth(from: nat, n: nat) {
      forall k :: from <= k < from + n ==> fate(k).Works?
    }

    /** From here on nothing fails. */
    ghost predicate Calm()
      reads this
    {
      !crashed && forall k :: ops <= k ==> fate(k).Works?
    }

    /** An operation that changes no file's content: mkdir, chmod, fsync, close. */
    method Touch() returns (ok: bool)
      modifies this`crashed, this`ops
      ensures ops == old(ops) + 1
      ensures ok <==> !old(crashed) && fate(old(ops)).Works?
      ensures crashed <==> old(crashed) || fate(old(ops)).Dies?
      ensures old(Calm()) ==> Calm() && ok
    {
      ok := !crashed && fate(ops).Works?;
      crashed := crashed || fate(ops).Dies?;
      ops := ops + 1;
    }

    method Create(path: string) returns (ok: bool)
      modifies this
      ensures (old(crashed) ==> crashed) && (ok ==> !crashed)
      ensures ops == old(ops) + 1 && (ok <==> !old(crashed) && fate(old(ops)).Works?)
      ensures files == if ok then old(files)[path := ""] else old(files)
      ensures Same(old(files), files, {path})
      ensures old(Calm()) ==> Calm() && ok
    {
      ok := Touch();
      if ok {
        files := files[path := ""];
      }
    }

    method Append(path: string, data: Data) returns (ok: bool)
      requires path in files
      modifies this
      ensures (old(crashed) ==> crashed) && (ok ==> !crashed)
      ensures path in files && Same(old(files), files, {path})
      ensures exists n :: 0 <= n <= |data| && files[path] == old(files)[path] + data[..n]
      ensures ok ==> files[path] == old(files)[path] + data
      ensures ops == old(ops) + 1 && (ok <==> !old(crashed) && fate(old(ops)).Works?)
      ensures old(Calm()) ==> Calm() && ok
    {
      var gone := crashed;
      ok := Touch();
      if gone {
        assert data[..0] == [] && files[path] == files[path] + data[..0];
        return;
      }
      var n: nat :| n <= |data|;
      n := if ok then |data| else n;
      files := files[path := files[path] + data[..n]];
    }

    /** As Append, and what is there after a failure is a beginning of what should be. */
    method AppendPrefix(path: string, data: Data) returns (ok: bool)
      requires path in files && files[path] == ""
      modifies this
      ensures (old(crashed) ==> crashed) && (ok ==> !crashed)
      ensures path in files && Same(old(files), files, {path}) && files[path] <= data
      ensures ops == old(ops) + 1 && (ok <==> !old(crashed) && fate(old(ops)).Works?)
      ensures ok ==> files[path] == data
      ensures old(Calm()) ==> Calm() && ok
    {
      ok := Append(path, data);
    }

    method Remove(path: string)
      modifies this
      ensures (old(crashed) ==> crashed) && Same(old(files), files, {path})
      ensures path in files ==> Kept(old(files), files, path)
      ensures old(Calm()) ==> Calm() && files == old(files) - {path}
    {
      var ok := Touch();
      if ok {
        files := files - {path};
      }
    }

    method Rename(from: string, to: string) returns (ok: bool)
      modifies this
      ensures (old(crashed) ==> crashed) && (ok ==> !crashed)
      ensures ok ==> from in old(files) && files == (old(files) - {from})[to := old(files)[from]]
      ensures !ok ==> files == old(files)
      ensures Same(old(files), files, {from, to})
      ensures ops == old(ops) + 1
      ensures ok <==> !old(crashed) && fate(old(ops)).Works? && from in old(files)
      ensures old(Calm()) ==> Calm() && (ok <==> from in old(files))
    {
      ok := Touch();
      if ok && from !in files {
        ok := false;
      }
      if ok {
        files := (files - {from})[to := files[from]];
      }
    }

    /** None: missing, unreadable, or the process is gone. */
    method Read(path: string) returns (r: Option<Data>)
      modifies this`crashed, this`ops
      ensures (old(crashed) ==> crashed) && (r.Some? ==> !crashed && path in files && r.value == files[path])
      ensures ops == old(ops) + 1
      ensures r.Some? <==> !old(crashed) && fate(old(ops)).Works? && path in files
      ensures fate(old(ops)).Works? && !old(crashed) ==> !crashed
      ensures old(Calm()) ==> Calm() && (r.Some? <==> path in files)
    {
      var ok := Touch();
      if !ok || path !in files {
        return None;
      }
      return Some(files[path]);
    }

    // ----- downloading -----

    /** Every chunk goes to the file and to the hash. */
    method StreamWithProgress(path: string, chunks: seq<Data>, complete: bool)
        returns (ok: bool, hashed: Data, written: nat)
      requires path in files && files[path] == ""
      modifies this
      ensures (old(crashed) ==> crashed) && (ok ==> !crashed)
      ensures path in files && Same(old(files), files, {path})
      ensures ok ==> hashed == Concat(chunks) == files[path] && written == |hashed| && complete
      ensures !old(crashed) && complete && Smooth(old(ops), Writes(chunks) + 1) ==>
                ok && ops == old(ops) + Writes(chunks) + 1
      ensures old(Calm()) ==> Calm() && (ok <==> complete)
    {
      hashed, written := "", 0;
      ghost var smooth := !crashed && Smooth(ops, Writes(chunks) + 1);
      for i := 0 to |chunks|
        invariant smooth ==> !crashed && ops == old(ops) + Writes(chunks[..i])
        invariant old(Calm()) ==> Calm()
        invariant path in files && Same(old(files), files, {path}) && (old(crashed) ==> crashed)
        invariant hashed == Concat(chunks[..i]) == files[path] && written == |hashed|
      {
        assert chunks[..i + 1][..i] == chunks[..i];
        WritesOfPrefix(chunks, i + 1);
        if |chunks[i]| > 0 {
          var stored := Append(path, chunks[i]);
          if !stored {
            return false, hashed, written;
          }
          hashed := hashed + chunks[i];
          written := written + |chunks[i]|;
        }
      }
      assert chunks[..|chunks|] == chunks;
      var alive := Touch();
      ok := complete && alive;
    }

    /** The target changes only to bytes with the wanted hash and size, whenever the process may die. */
    method DownloadAndVerify(url: string, sha256: string, size: int, dest: string, response: Response)
        returns (ok: bool)
      modifies this
      ensures (old(crashed) ==> crashed) && (ok ==> !crashed)
      ensures Same(old(files), files, {dest, dest + PARTIAL})
      ensures Kept(old(files), files, dest) || (dest in files && Wanted(sha256, size, files[dest]))
      ensures ok ==> dest in files && EqualFold(digest(files[dest]), sha256) && (size > 0 ==> |files[dest]| == size)
      ensures !old(crashed) && Delivers(digest, url, sha256, size, response)
              && Smooth(old(ops), Writes(response.chunks) + 4) ==>
                && ok && ops == old(ops) + Writes(response.chunks) + 4
                && files == Downloaded(old(files), dest, Concat(response.chunks))
      ensures old(Calm()) ==> Calm() && (ok <==> Delivers(digest, url, sha256, size, response))
      ensures ok ==> response.Answer? && files[dest] == Concat(response.chunks)
    {
      if url == "" || sha256 == "" || response == NoAnswer || response.status != 200 {
        return false;
      }
      if size > 0 && response.length > 0 && response.length != size {
        return false;
      }
      var partial := dest + PARTIAL;
      ghost var names := {dest, partial};
      assert |partial| != |dest|;
      var created := Create(partial);
      ghost var empty := files;
      if !created {
        return false;
      }
      SameMinus(old(files), empty, partial);
      ok := FillAndCommit(sha256, size, dest, response);
      ghost var filled := files;
      SameThen(old(files), empty, filled, {partial}, names, names);
      if !ok {
        Remove(partial);
        SameThen(old(files), filled, files, names, {partial}, names);
        assert Kept(old(files), empty, dest) && Kept(empty, filled, dest) && Kept(filled, files, dest);
      }
    }

    /** The hash, and the size if the manifest gives one. */
    predicate Wanted(sha256: string, size: int, content: Data) {
      Matches(digest, sha256, content) && (size > 0 ==> |content| == size)
    }

    method FillAndCommit(sha256: string, size: int, dest: string, response: Response) returns (ok: bool)
      requires dest + PARTIAL in files && files[dest + PARTIAL] == "" && response.Answer?
      modifies this
      ensures (old(crashed) ==> crashed) && (ok ==> !crashed)
      ensures Same(old(files), files, {dest, dest + PARTIAL})
      ensures if ok then dest in files && Wanted(sha256, size, files[dest]) else Kept(old(files), files, dest)
      ensures !old(crashed) && response.complete && Wanted(sha256, size, Concat(response.chunks))
              && Smooth(old(ops), Writes(response.chunks) + 3) ==>
                && ok && ops == old(ops) + Writes(response.chunks) + 3
                && files == Downloaded(old(files), dest, Concat(response.chunks))
      ensures old(Calm()) ==> Calm() && (ok <==> response.complete && Wanted(sha256, size, Concat(response.chunks)))
      ensures ok ==> files[dest] == Concat(response.chunks)
    {
      var partial := dest + PARTIAL;
      ghost var names := {dest, partial};
      assert |partial| != |dest|;
      var streamed, hashed, written := StreamWithProgress(partial, response.chunks, response.complete);
      if !streamed || (size > 0 && written != size) || !EqualFold(digest(hashed), sha256) {
        return false;
      }
      var synced := Touch();
      if !synced {
        return false;
      }
      ghost var filled := files;
      ok := Rename(partial, dest);
      SameThen(old(files), filled, files, {partial}, names, names);
      SameMinus(old(files), filled, partial);
    }

    /** `cancelled` tells whether the caller gave up by the end of an attempt. */
    method DownloadWithRetry(url: string, sha256: string, size: int, dest: string, net: nat -> Response,
        cancelled: nat -> bool)
        returns (ok: bool)
      modifies this
      ensures (old(crashed) ==> crashed) && (ok ==> !crashed)
      ensures Same(old(files), files, {dest, dest + PARTIAL})
      ensures Kept(old(files), files, dest) || (dest in files && Wanted(sha256, size, files[dest]))
      ensures ok ==> dest in files && Wanted(sha256, size, files[dest])
      ensures !old(crashed) && Delivers(digest, url, sha256, size, net(0))
              && Smooth(old(ops), Writes(net(0).chunks) + 4) ==>
                && ok && ops == old(ops) + Writes(net(0).chunks) + 4
                && files == Downloaded(old(files), dest, Concat(net(0).chunks))
      ensures old(Calm()) ==> Calm() && (ok <==> exists n :: Arrives(digest, url, sha256, size, net, cancelled, n))
      ensures old(Calm()) ==> forall n :: Arrives(digest, url, sha256, size, net, cancelled, n) ==>
                  dest in files && files[dest] == Concat(net(n).chunks)
    {
      hide Calm, EqualFold, Concat, Writes;
      ghost var smooth :=
        !crashed && Delivers(digest, url, sha256, size, net(0)) && Smooth(ops, Writes(net(0).chunks) + 4);
      for attempt := 0 to MAX_DOWNLOAD_ATTEMPTS
        invariant (old(crashed) ==> crashed) && Same(old(files), files, {dest, dest + PARTIAL})
        invariant Kept(old(files), files, dest) || (dest in files && Wanted(sha256, size, files[dest]))
        invariant attempt == 0 ==> crashed == old(crashed) && ops == old(ops) && files == old(files)
        invariant smooth ==> attempt == 0
        invariant old(Calm()) ==> Calm() && forall k :: 0 <= k < attempt ==>
            !Delivers(digest, url, sha256, size, net(k)) && !cancelled(k)
      {
        ghost var names, before := {dest, dest + PARTIAL}, files;
        ok := DownloadAndVerify(url, sha256, size, dest, net(attempt));
        SameThen(old(files), before, files, names, names, names);
        if old(Calm()) && ok {
          assert Arrives(digest, url, sha256, size, net, cancelled, attempt);
        }
        if ok || cancelled(attempt) {
          return;
        }
      }
      return false;
    }

    method FileMatchesSHA256(path: string, expected: string) returns (r: Option<bool>)
      modifies this`crashed, this`ops
      ensures (old(crashed) ==> crashed) && (r.Some? ==> !crashed)
      ensures r.Some? ==> (r.value <==> path in files && EqualFold(digest(files[path]), expected))
      ensures old(Calm()) ==> Calm() && r.Some?
    {
      var statted := Touch();
      if !statted {
        return None;
      }
      if path !in files {
        return Some(false);
      }
      var content := Read(path);
      if content == None {
        return None;
      }
      return Some(EqualFold(digest(content.value), expected));
    }

    // ----- unpacking -----

    method WriteOne(e: Entry, dest: string) returns (ok: bool)
      modifies this
      ensures (old(crashed) ==> crashed) && (ok ==> !crashed)
      ensures Same(old(files), files, {dest, dest + EXTRACT_PARTIAL})
      ensures if ok then dest in files && files[dest] == e.data else Kept(old(files), files, dest)
      ensures ok ==> e.readable && dest + EXTRACT_PARTIAL !in files
      ensures old(Calm()) ==> Calm() && (ok <==> e.readable)
    {
      hide Calm;
      var tmp := dest + EXTRACT_PARTIAL;
      ghost var names := {dest, tmp};
      assert |tmp| != |dest|;
      ok := Create(tmp);
      if !ok {
        return;
      }
      ghost var empty := files;
      ok := Append(tmp, e.data);
      ghost var filled := files;
      SameThen(old(files), empty, filled, {tmp}, {tmp}, names);
      ok := ok && e.readable;
      if ok {
        ok := Touch(); // fsync
      }
      if ok {
        ok := Touch(); // close
      }
      if ok {
        ok := Touch(); // chmod
      }
      if ok {
        ok := Rename(tmp, dest);
        SameThen(old(files), filled, files, names, names, names);
      }
      if !ok {
        ghost var failed := files;
        assert failed == filled;
        Remove(tmp);
        SameThen(old(files), failed, files, names, {tmp}, names);
        assert Kept(old(files), empty, dest) && Kept(empty, filled, dest) && Kept(filled, files, dest);
      }
    }

    method ExtractTarGz(src: string, dir: seq<string>) returns (ok: bool, extracted: seq<string>)
      modifies this
      ensures (old(crashed) ==> crashed) && (ok ==> !crashed)
      ensures src in old(files) && unpack(old(files)[src]).Some? ==>
                Unpacking(old(files), files, dir, unpack(old(files)[src]).value.entries)
      ensures (src in old(files) && unpack(old(files)[src]).Some?) || (files == old(files) && !ok)
      ensures Names(dir) ==> forall p :: Kept(old(files), files, p) || Within(dir, p)
      ensures ok ==> var entries := unpack(old(files)[src]).value.entries;
                     InPlace(files, dir, entries, |entries|) && extracted == Destinations(dir, entries)
      ensures old(Calm()) ==> Calm() && (ok <==> src in old(files) && Opens(unpack(old(files)[src])))
    {
      hide Within, Unpacking, InPlace, Destinations;
      if src in files && unpack(files[src]).Some? {
        NothingUnpackedYet(files, dir, unpack(files[src]).value.entries);
      }
      var content := Read(src);
      if content == None || unpack(content.value) == None {
        return false, [];
      }
      var archive := unpack(content.value).value;
      var made := Touch();
      if !made {
        return false, [];
      }
      ok, extracted := UnpackAll(archive, dir);
      ghost var now := files;
      forall p | Names(dir) && !Kept(old(files), now, p)
        ensures Within(dir, p)
      {
        UnpackingStaysInside(old(files), now, dir, archive.entries, p);
      }
    }

    method UnpackAll(archive: Archive, dir: seq<string>) returns (ok: bool, extracted: seq<string>)
      modifies this
      ensures (old(crashed) ==> crashed) && (ok ==> !crashed)
      ensures Unpacking(old(files), files, dir, archive.entries)
      ensures ok ==>
                InPlace(files, dir, archive.entries, |archive.entries|)
                && extracted == Destinations(dir, archive.entries)
      ensures old(Calm()) ==> Calm() && (ok <==> Opens(Some(archive)))
    {
      var entries := archive.entries;
      extracted := [];
      for k := 0 to |entries|
        invariant old(crashed) ==> crashed
        invariant Unpacking(old(files), files, dir, entries)
        invariant old(Calm()) ==> Calm() && Readable(entries, k)
        invariant InPlace(files, dir, entries, k) && extracted == Destinations(dir, entries[..k])
      {
        hide Unpacking, InPlace, Destinations, Under, IsLocal, Calm, Readable;
        DestinationsStep(dir, entries, k);
        ReadableStep(entries, k);
        var e := entries[k];
        if !IsLocal(e.name) || e.kind == Other {
          SkippedInPlace(files, dir, entries, k);
          continue;
        }
        var dirMade := Touch();
        if !dirMade {
          return false, extracted;
        }
        if e.kind == Regular {
          var done := UnpackEntry(old(files), dir, entries, k);
          if !done {
            return false, extracted;
          }
          extracted := extracted + [Under(dir, e.name)];
        } else {
          SkippedInPlace(files, dir, entries, k);
        }
      }
      assert entries[..|entries|] == entries;
      var alive := Touch();
      ok := archive.intact && alive;
    }

    method UnpackEntry(ghost before: Files, dir: seq<string>, entries: seq<Entry>, k: nat) returns (ok: bool)
      requires k < |entries| && Unpacked(entries[k])
      requires Unpacking(before, files, dir, entries) && InPlace(files, dir, entries, k)
      modifies this
      ensures (old(crashed) ==> crashed) && (ok ==> !crashed)
      ensures Unpacking(before, files, dir, entries)
      ensures ok ==> InPlace(files, dir, entries, k + 1)
      ensures old(Calm()) ==> Calm() && (ok <==> entries[k].readable)
    {
      hide *;
      var dest := Under(dir, entries[k].name);
      ghost var was := files;
      ok := WriteOne(entries[k], dest);
      StillUnpacking(before, was, files, dir, entries, k);
      if ok {
        OneMoreInPlace(was, files, dir, entries, k);
      }
    }

    // ----- llama-server -----

    predicate Brings(spec: ServerSpec, r: Response) {
      Delivers(digest, spec.url, spec.sha256, spec.size, r)
    }

    /** Some attempt brings the artifact, and an archive opens. */
    ghost predicate Obtainable(spec: ServerSpec, net: nat -> Response, cancelled: nat -> bool) {
      exists n ::
        && Arrives(digest, spec.url, spec.sha256, spec.size, net, cancelled, n)
        && (spec.extract == "" || (spec.extract == "tar.gz" && Opens(unpack(Concat(net(n).chunks)))))
    }

    ghost predicate ModelObtainable(spec: ArtifactSpec, net: nat -> Response, cancelled: nat -> bool) {
      exists n :: Arrives(digest, spec.url, spec.sha256, spec.size, net, cancelled, n)
    }

    method InstallRaw(l: Layout, spec: ServerSpec, net: nat -> Response, cancelled: nat -> bool) returns (ok: bool)
      requires Rooted(l) && spec.extract == ""
      modifies this
      ensures (old(crashed) ==> crashed) && (ok ==> !crashed)
      ensures Installing(digest, unpack, old(files), files, l, spec)
      ensures !Private(l, ServerTarget(l, spec)) ==> Kept(old(files), files, Marker(l))
      ensures ok ==> var t := ServerTarget(l, spec); t in files && Served(digest, unpack, l, spec, t, files[t])
      ensures Brings(spec, net(0)) && !old(crashed) && Smooth(old(ops), Writes(net(0).chunks) + 5) ==>
                && files == Downloaded(old(files), ServerTarget(l, spec), Concat(net(0).chunks))
                && ops == old(ops) + Writes(net(0).chunks) + 6
                && (ok <==> fate(ops - 1).Works?) && (crashed <==> fate(ops - 1).Dies?)
      ensures old(Calm()) ==> Calm() && (ok <==> Obtainable(spec, net, cancelled))
    {
      hide HasSuffix, Under, Matches, Puts, EqualFold, Rooted, Concat, Writes;
      var target := ServerTarget(l, spec);
      ok := Touch();
      if !ok {
        assert forall p :: KeptOrServed(digest, unpack, old(files), files, l, spec, p);
        return;
      }
      ok := DownloadWithRetry(spec.url, spec.sha256, spec.size, target, net, cancelled);
      SuffixOfAppend(target, PARTIAL);
      OwnNames(l);
      forall p
        ensures KeptOrServed(digest, unpack, old(files), files, l, spec, p)
      {
      }
      if ok {
        ok := Touch();
      }
    }

    method InstallTarball(l: Layout, spec: ServerSpec, net: nat -> Response, cancelled: nat -> bool) returns (ok: bool)
      requires Rooted(l) && spec.extract == "tar.gz"
      modifies this
      ensures (old(crashed) ==> crashed) && (ok ==> !crashed)
      ensures Installing(digest, unpack, old(files), files, l, spec)
      ensures WellMade(digest, unpack, l, spec) ==> Kept(old(files), files, Marker(l))
      ensures ok && WellMade(digest, unpack, l, spec) ==>
                var t := ServerTarget(l, spec); t in files && Served(digest, unpack, l, spec, t, files[t])
      ensures old(Calm()) ==> Calm() && (ok <==> Obtainable(spec, net, cancelled))
    {
      hide HasSuffix, Under, Matches, EqualFold, Rooted, Unpacking, InPlace, Puts, PathOf, Opens, Delivers, Concat;
      var tarball := Tarball(l);
      ok := DownloadWithRetry(spec.url, spec.sha256, spec.size, tarball, net, cancelled);
      OwnNames(l);
      SuffixOfAppend(tarball, PARTIAL);
      if !ok {
        assert forall p :: KeptOrServed(digest, unpack, old(files), files, l, spec, p);
        return;
      }
      ok := InstallFetched(l, spec, old(files));
    }

    /** From the archive in the cache: unpack it, and drop it if that fails. */
    method InstallFetched(l: Layout, spec: ServerSpec, ghost before: Files) returns (ok: bool)
      requires Rooted(l) && spec.extract == "tar.gz" && Same(before, files, {Tarball(l), Tarball(l) + PARTIAL})
      requires Tarball(l) in files && Matches(digest, spec.sha256, files[Tarball(l)])
      modifies this
      ensures (old(crashed) ==> crashed) && (ok ==> !crashed)
      ensures Installing(digest, unpack, before, files, l, spec)
      ensures WellMade(digest, unpack, l, spec) ==> Kept(before, files, Marker(l))
      ensures ok && WellMade(digest, unpack, l, spec) ==>
                var t := ServerTarget(l, spec); t in files && Served(digest, unpack, l, spec, t, files[t])
      ensures old(Calm()) ==> Calm() && (ok <==> Opens(unpack(old(files)[Tarball(l)])))
    {
      hide HasSuffix, Under, Matches, EqualFold, Rooted, Unpacking, InPlace, Puts, PathOf, Opens, Served, Private;
      var tarball := Tarball(l);
      OwnTarball(l);
      ghost var fetched := files;
      assert Kept(before, fetched, Marker(l));
      ghost var archive := files[tarball];
      ok := Extract(l);
      ghost var unpacked := files;
      if unpack(archive).Some? {
        UnpackingServes(digest, unpack, before, fetched, unpacked, l, spec, archive);
        if WellMade(digest, unpack, l, spec) {
          UnpackingKeepsMarker(fetched, unpacked, l, unpack(archive).value.entries);
          if ok {
            TargetInPlace(digest, unpack, unpacked, l, spec, archive);
          }
        }
      } else {
        assert forall p :: KeptOrServed(digest, unpack, before, files, l, spec, p);
      }
      if !ok {
        Remove(tarball);
        InstallingThen(digest, unpack, before, unpacked, files, l, spec, tarball);
        assert Kept(unpacked, files, Marker(l));
      }
    }

    lemma OwnTarball(l: Layout)
      requires Rooted(l)
      ensures Private(l, Tarball(l)) && Private(l, Tarball(l) + PARTIAL)
      ensures Marker(l) != Tarball(l) && Marker(l) != Tarball(l) + PARTIAL
    {
      hide Under, Rooted;
      OwnNames(l);
      SuffixOfAppend(Tarball(l), PARTIAL);
    }

    method Extract(l: Layout) returns (ok: bool)
      requires Tarball(l) in files
      modifies this
      ensures (old(crashed) ==> crashed) && (ok ==> !crashed)
      ensures match unpack(old(files)[Tarball(l)])
              case None => files == old(files) && !ok
              case Some(a) =>
                && Unpacking(old(files), files, l.llamaDir, a.entries)
                && (ok ==> InPlace(files, l.llamaDir, a.entries, |a.entries|))
      ensures old(Calm()) ==> Calm() && (ok <==> Opens(unpack(old(files)[Tarball(l)])))
    {
      var extracted;
      ok, extracted := ExtractTarGz(Tarball(l), l.llamaDir);
    }

    /** Whichever way the manifest says. */
    method Obtain(l: Layout, spec: ServerSpec, net: nat -> Response, cancelled: nat -> bool) returns (ok: bool)
      requires Rooted(l)
      modifies this
      ensures (old(crashed) ==> crashed) && (ok ==> !crashed)
      ensures Installing(digest, unpack, old(files), files, l, spec)
      ensures WellMade(digest, unpack, l, spec) ==> Kept(old(files), files, Marker(l))
      ensures ok && WellMade(digest, unpack, l, spec) ==>
                var t := ServerTarget(l, spec); t in files && Served(digest, unpack, l, spec, t, files[t])
      ensures spec.extract == "" && Brings(spec, net(0)) && !old(crashed)
              && Smooth(old(ops), Writes(net(0).chunks) + 5) ==>
                && files == Downloaded(old(files), ServerTarget(l, spec), Concat(net(0).chunks))
                && ops == old(ops) + Writes(net(0).chunks) + 6
                && (ok <==> fate(ops - 1).Works?) && (crashed <==> fate(ops - 1).Dies?)
      ensures old(Calm()) ==> Calm() && (ok <==> Obtainable(spec, net, cancelled))
    {
      hide HasSuffix, Under, Matches, Puts, EqualFold, PathOf, Rooted, Served, Concat, Writes, Delivers;
      ok := false;
      if spec.extract == "" {
        ok := InstallRaw(l, spec, net, cancelled);
      } else if spec.extract == "tar.gz" {
        ok := InstallTarball(l, spec, net, cancelled);
      } else {
        assert forall p :: KeptOrServed(digest, unpack, old(files), files, l, spec, p);
      }
    }

    method WriteMarker(l: Layout, spec: ServerSpec)
      modifies this
      ensures (old(crashed) ==> crashed) && Same(old(files), files, {Marker(l)})
      ensures MarkerFrom(old(files), files, l, spec)
      ensures !old(crashed) && Smooth(old(ops), 2) ==>
                !crashed && ops == old(ops) + 2 && files == old(files)[Marker(l) := spec.sha256]
      ensures old(Calm()) ==> Calm() && Marker(l) in files && files[Marker(l)] == spec.sha256
    {
      hide Under;
      var marker := Marker(l);
      var created := Create(marker);
      if created {
        ghost var empty := files;
        var written := AppendPrefix(marker, spec.sha256);
        SameThen(old(files), empty, files, {marker}, {marker}, {marker});
        SamePut(old(files), files, marker);
      }
    }

    /**
      What a boot that nothing disturbs does, for an artifact that is the executable itself: it finds its marker
      beside the executable; or it installs the executable and then the marker. Disturbed only at the chmod
      between the two, it leaves the new executable beside the old marker.
    */
    ghost predicate RawBoot(l: Layout, spec: ServerSpec, response: Response, before: Files, start: nat,
        now: Files, gone: bool, end: nat, r: Option<string>)
    {
      var target, marker := ServerTarget(l, spec), Marker(l);
      if marker in before && before[marker] == spec.sha256 && target in before then
        Smooth(start, 2) ==> r == Some(target) && now == before && !gone && end == start + 2
      else if marker !in before || before[marker] != spec.sha256 then
        spec.extract == "" && Brings(spec, response) && Smooth(start, Writes(response.chunks) + 6) ==>
          var installed := Downloaded(before, target, Concat(response.chunks));
          var chmod := start + Writes(response.chunks) + 6;
          && (Smooth(chmod, 5) ==>
                r == Some(target) && now == installed[marker := spec.sha256] && !gone && end == chmod + 5)
          && (!fate(chmod).Works? ==>
                r == None && now == installed && (gone <==> fate(chmod).Dies?) && end == chmod + 1)
      else true
    }

    /** The executable is there, with the marker of this manifest beside it. */
    predicate Installed(now: Files, l: Layout, spec: ServerSpec) {
      Marker(l) in now && now[Marker(l)] == spec.sha256 && ServerTarget(l, spec) in now
    }

    method EnsureLlamaServer(l: Layout, spec: ServerSpec, net: nat -> Response, cancelled: nat -> bool)
        returns (r: Option<string>)
      requires Rooted(l)
      modifies this
      ensures (old(crashed) ==> crashed) && (r.Some? ==> !crashed)
      ensures Installing(digest, unpack, old(files), files, l, spec)
      ensures r.Some? ==> r.value == ServerTarget(l, spec)
      ensures !Private(l, ServerTarget(l, spec)) && r.Some? ==> r.value in files
      ensures WellMade(digest, unpack, l, spec) ==> MarkerFrom(old(files), files, l, spec)
      ensures WellMade(digest, unpack, l, spec) && Honest(digest, unpack, old(files), l, spec) ==>
                && Honest(digest, unpack, files, l, spec)
                && (r.Some? ==> Served(digest, unpack, l, spec, r.value, files[r.value]))
      ensures !old(crashed) ==> RawBoot(l, spec, net(0), old(files), old(ops), files, crashed, ops, r)
      ensures old(Calm()) && WellMade(digest, unpack, l, spec) ==>
                && Calm() && (r.Some? <==> Installed(old(files), l, spec) || Obtainable(spec, net, cancelled))
                && (r.Some? ==> Installed(files, l, spec))
    {
      hide HasSuffix, Under, Matches, Puts, EqualFold, PathOf, Rooted, Served, Concat, Writes, Brings, Calm, Obtainable;
      var found := FindInstalled(l, spec);
      if found {
        assert forall p :: KeptOrServed(digest, unpack, old(files), files, l, spec, p);
        return Some(ServerTarget(l, spec));
      }
      var ok := Obtain(l, spec, net, cancelled);
      if WellMade(digest, unpack, l, spec) && Honest(digest, unpack, old(files), l, spec) {
        HonestKept(digest, unpack, old(files), files, l, spec);
      }
      if !ok {
        return None;
      }
      r := Finish(l, spec, old(files));
    }

    /** The marker is read, and only if it matches the executable is looked for. */
    method FindInstalled(l: Layout, spec: ServerSpec) returns (found: bool)
      modifies this`crashed, this`ops
      ensures (old(crashed) ==> crashed) && (found ==> !crashed && Installed(files, l, spec))
      ensures old(Calm()) ==> Calm() && (found <==> Installed(files, l, spec))
      ensures !old(crashed) && Smooth(old(ops), 2) && Installed(files, l, spec) ==>
                found && !crashed && ops == old(ops) + 2
      ensures !old(crashed) && Smooth(old(ops), 1) && (Marker(l) !in files || files[Marker(l)] != spec.sha256) ==>
                !found && !crashed && ops == old(ops) + 1
    {
      hide Under;
      found := false;
      var existing := Read(Marker(l));
      if existing == Some(spec.sha256) {
        var statted := Touch();
        found := statted && ServerTarget(l, spec) in files;
      }
    }

    /** From the check that the executable is there: it is made executable, and only then the marker is written. */
    method Finish(l: Layout, spec: ServerSpec, ghost before: Files) returns (r: Option<string>)
      requires Rooted(l) && Installing(digest, unpack, before, files, l, spec)
      modifies this
      ensures (old(crashed) ==> crashed) && (r.Some? ==> !crashed)
      ensures Installing(digest, unpack, before, files, l, spec)
      ensures r.Some? ==> r.value == ServerTarget(l, spec)
      ensures !Private(l, ServerTarget(l, spec)) && r.Some? ==> r.value in files
      ensures MarkerFrom(old(files), files, l, spec)
      ensures !Private(l, ServerTarget(l, spec)) ==> Kept(old(files), files, ServerTarget(l, spec))
      ensures !old(crashed) && Smooth(old(ops), 4) && spec.extract == "" && ServerTarget(l, spec) in old(files) ==>
                && r.Some? && !crashed && ops == old(ops) + 4
                && files == old(files)[Marker(l) := spec.sha256]
      ensures old(Calm()) ==> Calm() && (r.Some? <==> ServerTarget(l, spec) in old(files))
      ensures old(Calm()) && r.Some? ==> Marker(l) in files && files[Marker(l)] == spec.sha256
    {
      hide HasSuffix, Under, Matches, Puts, EqualFold, PathOf, Rooted, Served;
      var target := ServerTarget(l, spec);
      OwnNames(l);
      var statted := Touch();
      var present := statted && target in files;
      if present {
        present := Touch();
      }
      if present {
        WriteMarker(l, spec);
        InstallingThen(digest, unpack, before, old(files), files, l, spec, Marker(l));
      }
      ghost var marked := files;
      if spec.extract == "tar.gz" {
        Remove(Tarball(l));
        InstallingThen(digest, unpack, before, marked, files, l, spec, Tarball(l));
        assert Kept(marked, files, Marker(l));
        assert target != Tarball(l) ==> Kept(marked, files, target);
      }
      assert target != Marker(l) ==> Kept(old(files), marked, target);
      return if present && !crashed then Some(target) else None;
    }

    // ----- the model, and whole boots -----

    predicate ModelThere(now: Files, l: Layout, variant: string, spec: ArtifactSpec) {
      ModelPath(l, variant) in now && Matches(digest, spec.sha256, now[ModelPath(l, variant)])
    }

    method EnsureModel(l: Layout, variant: string, spec: ArtifactSpec, net: nat -> Response, cancelled: nat -> bool)
        returns (r: Option<string>)
      modifies this
      ensures (old(crashed) ==> crashed) && (r.Some? ==> !crashed)
      ensures Same(old(files), files, {ModelPath(l, variant), ModelPath(l, variant) + PARTIAL})
      ensures r.Some? ==>
                r.value == ModelPath(l, variant) && r.value in files
                && EqualFold(digest(files[r.value]), spec.sha256)
      ensures old(Calm()) ==>
                && Calm()
                && (r.Some? <==> ModelThere(old(files), l, variant, spec) || ModelObtainable(spec, net, cancelled))
    {
      hide ModelPath, EqualFold;
      var target := ModelPath(l, variant);
      var matching := FileMatchesSHA256(target, spec.sha256);
      if matching == None {
        return None;
      }
      if matching.value {
        return Some(target);
      }
      var made := Touch();
      if !made {
        return None;
      }
      var ok := DownloadWithRetry(spec.url, spec.sha256, spec.size, target, net, cancelled);
      return if ok then Some(target) else None;
    }

    /** Both artifacts can be had, from the parts of the network's answers that concern them. */
    ghost predicate Available(m: Manifest, net: (bool, nat) -> Response, cancelled: (bool, nat) -> bool) {
      && Obtainable(m.server, Part(net, true), Part(cancelled, true))
      && ModelObtainable(m.model, Part(net, false), Part(cancelled, false))
    }

    method EnsureAll(l: Layout, m: Manifest, net: (bool, nat) -> Response, cancelled: (bool, nat) -> bool,
        ghost known: seq<Manifest>)
        returns (r: Option<Booted>)
      requires Rooted(l) && known != [] && Last(known) == m
      requires Provenance(digest, unpack, files, l, known, |known| - 1)
      modifies this
      ensures Provenance(digest, unpack, files, l, known, |known|)
      ensures r.Some? ==> EqualFold(digest(r.value.model), m.model.sha256)
      ensures WellMadeManifest(digest, unpack, l, m) && TrustedBefore(old(files), l, m, known) ==>
                && Honest(digest, unpack, files, l, m.server) && MarkerKnown(files, l, known, |known|)
                && (r.Some? ==> ServerOk(l, m, r.value))
      ensures old(Calm()) && WellMadeManifest(digest, unpack, l, m) && Available(m, net, cancelled) ==>
                Calm() && r.Some?
    {
      hide Served, Under, Honest, MarkerFrom, MarkerKnown, Provenance, Installing, EqualFold, Rooted, Calm;
      hide Obtainable, ModelObtainable;
      var server := EnsureLlamaServer(l, m.server, Part(net, true), Part(cancelled, true));
      ghost var first := files;
      var model := None;
      if server.Some? {
        model := EnsureModel(l, m.variant, m.model, Part(net, false), Part(cancelled, false));
      }
      ProvenanceKept(digest, unpack, old(files), first, files, l, known, |known| - 1);
      if WellMadeManifest(digest, unpack, l, m) && TrustedBefore(old(files), l, m, known) {
        ModelLeavesServer(first, files, l, m);
        HonestOfKept(digest, unpack, first, files, l, m.server);
        MarkerStaysKnown(old(files), first, files, l, known, |known| - 1);
      }
      if server.Some? && model.Some? {
        var content := if server.value in files then Some(files[server.value]) else None;
        return Some(Booted(content, files[model.value]));
      }
      return None;
    }

    /** A marker that matches can be trusted, and the marker there is is one of an earlier manifest. */
    ghost predicate TrustedBefore(before: Files, l: Layout, m: Manifest, known: seq<Manifest>)
      requires known != []
    {
      Honest(digest, unpack, before, l, m.server) && MarkerKnown(before, l, known, |known| - 1)
    }

    /** The boot returned an executable that the manifest's own artifact installs. */
    ghost predicate ServerOk(l: Layout, m: Manifest, b: Booted) {
      b.server.Some? && Served(digest, unpack, l, m.server, ServerTarget(l, m.server), b.server.value)
    }

    ghost predicate AllWellMade(l: Layout, manifests: seq<Manifest>) {
      NoRollback(manifests) && forall k :: 0 <= k < |manifests| ==> WellMadeManifest(digest, unpack, l, manifests[k])
    }

    /**
      Boots one after another on a fresh install, each perhaps cut short by a crash. Every file comes from a
      manifest, every returned model has its manifest's hash, and, if no manifest returns once replaced,
      every returned executable is the one its own manifest installs.
    */
    method RunBoots(l: Layout, manifests: seq<Manifest>, net: (nat, bool, nat) -> Response,
        cancelled: (nat, bool, nat) -> bool)
        returns (boots: seq<Option<Booted>>)
      requires Rooted(l) && files == map[]
      modifies this
      ensures |boots| == |manifests|
      ensures Provenance(digest, unpack, files, l, manifests, |manifests|)
      ensures forall k :: 0 <= k < |boots| && boots[k].Some? ==>
                EqualFold(digest(boots[k].value.model), manifests[k].model.sha256)
      ensures AllWellMade(l, manifests) ==> forall k :: 0 <= k < |boots| && boots[k].Some? ==>
                ServerOk(l, manifests[k], boots[k].value)
      ensures old(Calm()) && AllWellMade(l, manifests)
              && (forall k :: 0 <= k < |manifests| ==>
                  Available(manifests[k], PartOfBoot(net, k), PartOfBoot(cancelled, k))) ==>
                forall k :: 0 <= k < |boots| ==> boots[k].Some?
    {
      hide Honest, MarkerKnown, Provenance, ServerOk, Rooted, NoRollback, WellMadeManifest, EqualFold, Available;
      ghost var good := AllWellMade(l, manifests);
      ghost var available := good && Calm() && forall k :: 0 <= k < |manifests| ==>
          Available(manifests[k], PartOfBoot(net, k), PartOfBoot(cancelled, k));
      boots := [];
      FreshDisk(digest, unpack, files, l, manifests);
      for k := 0 to |manifests|
        invariant |boots| == k && Provenance(digest, unpack, files, l, manifests, k)
        invariant forall i :: 0 <= i < |boots| && boots[i].Some? ==>
                  EqualFold(digest(boots[i].value.model), manifests[i].model.sha256)
        invariant good && k > 0 ==> Honest(digest, unpack, files, l, manifests[k - 1].server)
        invariant good ==> MarkerKnown(files, l, manifests, k)
        invariant available ==> Calm() && forall i :: 0 <= i < |boots| ==> boots[i].Some?
        invariant good ==> forall i :: 0 <= i < |boots| && boots[i].Some? ==> ServerOk(l, manifests[i], boots[i].value)
      {
        crashed := false;
        ghost var known := manifests[..k + 1];
        if good {
          WellMadeHashes(digest, unpack, l, manifests);
          HonestAtBoot(digest, unpack, files, l, manifests, k);
        }
        KnownPrefix(digest, unpack, files, l, manifests, k, k + 1);
        var b := EnsureAll(l, manifests[k], PartOfBoot(net, k), PartOfBoot(cancelled, k), known);
        KnownPrefix(digest, unpack, files, l, manifests, k + 1, k + 1);
        boots := boots + [b];
      }
    }
  }

  /** A server that sends the content in one piece. */
  function Sends(content: Data): Response {
    Answer(200, -1, [content], true)
  }

  lemma SendsDelivers(digest: Data -> string, spec: ServerSpec, content: Data)
    requires spec.url != "" && spec.sha256 == digest(content) && digest(content) != ""
    requires spec.size > 0 ==> |content| == spec.size
    ensures Delivers(digest, spec.url, spec.sha256, spec.size, Sends(content))
    ensures Concat(Sends(content).chunks) == content && Writes(Sends(content).chunks) <= 1
  {
    assert [content][..0] == [] && Concat([content][..0]) == "" && Writes([content][..0]) == 0;
    assert Concat([content]) == Concat([content][..0]) + [content][0] == content;
    assert EqualFold(digest(content), digest(content));
  }

  /**
    The run behind it: a boot under `a` that nothing disturbs, a boot under `b` that dies between the new
    executable and its marker, and a boot under `a` again. It finds the marker of `a`, and returns the executable
    of `b`.
  */
  method RollbackRun(digest: Data -> string, unpack: Data -> Option<Archive>, l: Layout, a: ServerSpec, b: ServerSpec,
      x: Data, y: Data)
      returns (d: Disk, first: Option<string>, second: Option<string>, third: Option<string>)
    requires Rooted(l) && a.extract == b.extract == "" && a.exec == b.exec && a.url != "" && b.url != ""
    requires a.sha256 == digest(x) && b.sha256 == digest(y)
    requires (a.size > 0 ==> |x| == a.size) && (b.size > 0 ==> |y| == b.size)
    requires digest(x) != "" && digest(y) != "" && !EqualFold(digest(y), digest(x))
    requires !Private(l, ServerTarget(l, a))
    ensures d.digest == digest && d.unpack == unpack
    ensures first == third == Some(ServerTarget(l, a)) && second == None
    ensures var target := ServerTarget(l, a);
            target in d.files && d.files[target] == y && !Served(digest, unpack, l, a, target, d.files[target])
  {
    hide Under, Rooted, HasSuffix, Delivers, Concat, Writes, Arrives, Opens, WellMade;
    ghost var target, marker := ServerTarget(l, a), Marker(l);
    assert target == ServerTarget(l, b) && target != marker && digest(x) != digest(y);
    assert EqualFold(digest(x), digest(x)) && EqualFold(digest(y), digest(y));
    OwnNames(l);
    SuffixOfAppend(target, PARTIAL);
    SendsDelivers(digest, a, x);
    SendsDelivers(digest, b, y);
    var death := Writes(Sends(x).chunks) + Writes(Sends(y).chunks) + 17;
    d := new Disk(digest, unpack, k => if k == death then Dies else Works);
    first := d.EnsureLlamaServer(l, a, _ => Sends(x), _ => false);
    assert d.files[marker] == digest(x);
    second := d.EnsureLlamaServer(l, b, _ => Sends(y), _ => false);
    assert d.files[marker] == digest(x) && d.files[target] == y;
    d.crashed := false;
    third := d.EnsureLlamaServer(l, a, _ => Sends(x), _ => false);
  }
}
