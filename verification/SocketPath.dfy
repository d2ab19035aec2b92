/**
  Where the socket is. A client resolves the path it was given, and passes only its directory on to the
  daemon it launches; the daemon adds the socket's name and resolves again. Both must end at one file.

  A char stands for a byte. SHA-256 is the parameter `sha`, any function to 32 bytes.
*/
module SocketPath {
  import opened Wrappers
  import opened FilePath
  import opened Route

  const SUN_PATH_LIMIT := 104
  const SOCKET_NAME := "embedding.sock"

  type Digest = b: Bytes | |b| == 32
    witness [0, 0, 0, 0, 0, 0, 0, 0, 0, 0, 0, 0, 0, 0, 0, 0, 0, 0, 0, 0, 0, 0, 0, 0, 0, 0, 0, 0, 0, 0, 0, 0]

  type Hasher = string -> Digest

  function Decimal(n: nat): string {
    if n < 10 then ["0123456789"[n]] else Decimal(n / 10) + ["0123456789"[n % 10]]
  }

  function SocketAliasDir(uid: Word): string {
    Join("/tmp", "runed-" + Decimal(uid))
  }

  function AliasName(sha: Hasher, cleaned: string): string {
    "runed-" + Hex(sha(cleaned)[..16]) + ".sock"
  }

  /** `wd` is the working directory, if it can be told. */
  function ResolveSocketPath(sha: Hasher, uid: Word, wd: Option<string>, canonical: string): string {
    var cleaned := match Abs(wd, Clean(canonical)) case Some(absolute) => absolute case None => Clean(canonical);
    if |cleaned| < SUN_PATH_LIMIT then cleaned else Join(SocketAliasDir(uid), AliasName(sha, cleaned))
  }

  /** What launchDaemon passes to the daemon as RUNED_HOME. */
  function DaemonHome(socketPath: string): string {
    Dir(socketPath)
  }

  /** The path the daemon binds, run with this RUNED_HOME; none if its home cannot be made absolute. */
  function DaemonSocket(sha: Hasher, uid: Word, wd: Option<string>, home: string): Option<string> {
    match Abs(wd, home)
    case None => None
    case Some(abs) => Some(ResolveSocketPath(sha, uid, wd, Join(abs, SOCKET_NAME)))
  }

  // ----- the alias -----

  lemma {:induction false} DecimalDigits(n: nat)
    ensures '/' !in Decimal(n) && Decimal(n) != ""
    ensures n < 10 ==> |Decimal(n)| == 1
  {
    if n >= 10 {
      DecimalDigits(n / 10);
    }
  }

  lemma {:induction false} DecimalLength(n: nat, digits: nat)
    requires digits >= 1 && n < Power10(digits)
    ensures |Decimal(n)| <= digits
    decreases digits
  {
    if digits > 1 && n >= 10 {
      DecimalLength(n / 10, digits - 1);
    }
  }

  function Power10(k: nat): nat {
    if k == 0 then 1 else 10 * Power10(k - 1)
  }

  lemma {:induction false} HexDigits(b: Bytes)
    ensures '/' !in Hex(b)
  {
    if b != [] {
      HexDigits(b[..|b| - 1]);
      assert forall i :: 0 <= i < 16 ==> HEX_DIGITS[i] != '/';
    }
  }

  function AliasSegments(sha: Hasher, uid: Word, cleaned: string): seq<string> {
    ["tmp", "runed-" + Decimal(uid), AliasName(sha, cleaned)]
  }

  lemma AliasSegmentsAreNames(sha: Hasher, uid: Word, cleaned: string)
    ensures Names(AliasSegments(sha, uid, cleaned))
  {
    DecimalDigits(uid);
    HexDigits(sha(cleaned)[..16]);
    assert ("runed-" + Decimal(uid))[0] == 'r';
    assert AliasName(sha, cleaned)[0] == 'r';
  }

  lemma AliasIsRendered(sha: Hasher, uid: Word, cleaned: string)
    ensures Join(SocketAliasDir(uid), AliasName(sha, cleaned)) == Render(true, AliasSegments(sha, uid, cleaned))
  {
    AliasSegmentsAreNames(sha, uid, cleaned);
    hide Join, AliasName, Decimal, Name;
    var segs := AliasSegments(sha, uid, cleaned);
    var tmp, dir := ["tmp"], ["tmp", segs[1]];
    assert Name("tmp") by { TmpIsName(); }
    assert Name(segs[1]) && Name(segs[2]);
    assert Render(true, tmp) == "/tmp";
    hide Render;
    JoinOfName(tmp, segs[1]);
    assert tmp + [segs[1]] == dir;
    JoinOfName(dir, segs[2]);
    assert dir + [segs[2]] == segs;
  }

  lemma TmpIsName()
    ensures Name("tmp")
  {
  }

  lemma JoinSlashOfThree(a: string, b: string, c: string)
    ensures JoinSlash([a, b, c]) == a + "/" + b + "/" + c
  {
    assert [a, b, c][..2] == [a, b] && [a, b][..1] == [a];
    assert JoinSlash([a, b]) == JoinSlash([a, b][..1]) + "/" + b;
    assert JoinSlash([a, b, c]) == JoinSlash([a, b, c][..2]) + "/" + c;
  }

  /** The alias is an absolute, clean path in the user's own directory, and it is short enough. */
  lemma AliasIsShort(sha: Hasher, uid: Word, cleaned: string)
    ensures Join(SocketAliasDir(uid), AliasName(sha, cleaned)) == Render(true, AliasSegments(sha, uid, cleaned))
    ensures |Render(true, AliasSegments(sha, uid, cleaned))| < SUN_PATH_LIMIT
  {
    hide Join, JoinSlash, Decimal, Power10, Hex;
    AliasIsRendered(sha, uid, cleaned);
    PowersOfTen();
    DecimalLength(uid, 10);
    JoinSlashOfThree("tmp", "runed-" + Decimal(uid), AliasName(sha, cleaned));
  }

  lemma PowersOfTen()
    ensures Power10(10) == 10_000_000_000
  {
    assert Power10(5) == 100_000;
  }

  /** What a decimal numeral says. */
  function Numeral(s: string): int {
    if s == "" then 0 else 10 * Numeral(s[..|s| - 1]) + (s[|s| - 1] as int - '0' as int)
  }

  lemma {:induction false} DecimalSays(n: nat)
    ensures Numeral(Decimal(n)) == n
  {
    var digits := "0123456789";
    assert forall d: int :: 0 <= d < 10 ==> digits[d] as int == '0' as int + d;
    if n < 10 {
      assert Decimal(n)[..0] == "";
    } else {
      DecimalSays(n / 10);
      assert Decimal(n)[..|Decimal(n)| - 1] == Decimal(n / 10);
    }
  }

  /** Two aliases are one path exactly for one user and names whose hashes begin alike. */
  lemma AliasesAgreeIff(sha: Hasher, uid: Word, a: string, other: Word, b: string)
    ensures Render(true, AliasSegments(sha, uid, a)) == Render(true, AliasSegments(sha, other, b)) <==>
              uid == other && sha(a)[..16] == sha(b)[..16]
  {
    hide Render, Decimal, Hex, Names, Numeral;
    AliasSegmentsAreNames(sha, uid, a);
    AliasSegmentsAreNames(sha, other, b);
    RenderInjective(AliasSegments(sha, uid, a), AliasSegments(sha, other, b));
    if AliasSegments(sha, uid, a) == AliasSegments(sha, other, b) {
      var mine, theirs := AliasSegments(sha, uid, a), AliasSegments(sha, other, b);
      assert mine[1][6..] == Decimal(uid) && theirs[1][6..] == Decimal(other);
      DecimalSays(uid);
      DecimalSays(other);
      var m, t := mine[2][6..], theirs[2][6..];
      assert m[..|m| - 5] == Hex(sha(a)[..16]) && t[..|t| - 5] == Hex(sha(b)[..16]);
      HexInjective(sha(a)[..16], sha(b)[..16]);
    }
  }

  // ----- resolving -----

  /** A name of up to 103 bytes resolves to its canonical form, a longer one to the user's alias for it. */
  lemma ResolvesTo(sha: Hasher, uid: Word, wd: Option<string>, p: string)
    requires Host(wd) && (wd.Some? || IsAbs(p))
    ensures var canon := Render(true, Canon(if wd.Some? then wd.value else "", p));
            ResolveSocketPath(sha, uid, wd, p) ==
            if |canon| <= 103 then canon else Render(true, AliasSegments(sha, uid, canon))
  {
    hide Canon, Clean, Render, Abs, Join;
    AbsOfCleanIsCanon(wd, p);
    AliasIsRendered(sha, uid, Render(true, Canon(if wd.Some? then wd.value else "", p)));
  }

  predicate Host(wd: Option<string>) {
    wd.Some? ==> IsAbs(wd.value)
  }

  /** Every resolved path can be bound and dialled. */
  lemma ResolvedFits(sha: Hasher, uid: Word, wd: Option<string>, p: string)
    ensures |ResolveSocketPath(sha, uid, wd, p)| < SUN_PATH_LIMIT
  {
    hide Abs, Clean, Join, Render;
    var cleaned := match Abs(wd, Clean(p)) case Some(absolute) => absolute case None => Clean(p);
    AliasIsShort(sha, uid, cleaned);
  }

  lemma ResolveOfRooted(sha: Hasher, uid: Word, wd: Option<string>, segs: seq<string>)
    requires Names(segs) && |Render(true, segs)| < SUN_PATH_LIMIT
    ensures ResolveSocketPath(sha, uid, wd, Render(true, segs)) == Render(true, segs)
  {
    CleanOfRendered(segs);
    SegmentsOfRooted(segs);
  }

  /** Resolving what is resolved changes nothing, so both sides may do it as often as they like. */
  lemma ResolveIdempotent(sha: Hasher, uid: Word, wd: Option<string>, p: string)
    requires Host(wd)
    ensures var r := ResolveSocketPath(sha, uid, wd, p); ResolveSocketPath(sha, uid, wd, r) == r
  {
    if wd.Some? || IsAbs(p) {
      AbsOfCleanIsCanon(wd, p);
      var segs := Canon(if wd.Some? then wd.value else "", p);
      CanonIsNames(if wd.Some? then wd.value else "", p);
      hide Canon, Clean, Render, Abs, Join;
      if |Render(true, segs)| < SUN_PATH_LIMIT {
        ResolveOfRooted(sha, uid, wd, segs);
      } else {
        AliasIsShort(sha, uid, Render(true, segs));
        AliasSegmentsAreNames(sha, uid, Render(true, segs));
        ResolveOfRooted(sha, uid, wd, AliasSegments(sha, uid, Render(true, segs)));
      }
    } else {
      RelativeStays(p);
      CleanIdempotent(p);
      hide Canon, Clean, Render, Join;
      if |Clean(p)| >= SUN_PATH_LIMIT {
        AliasIsShort(sha, uid, Clean(p));
        AliasSegmentsAreNames(sha, uid, Clean(p));
        ResolveOfRooted(sha, uid, wd, AliasSegments(sha, uid, Clean(p)));
      }
    }
  }

  lemma RelativeStays(p: string)
    requires !IsAbs(p)
    ensures !IsAbs(Clean(p))
  {
    SegmentsOfCleanRelative(p);
  }

  /** Two spellings of one file name, relative or not, clean or not, resolve alike. */
  lemma SpellingsConverge(sha: Hasher, uid: Word, wd: string, p: string, q: string)
    requires IsAbs(wd) && Canon(wd, p) == Canon(wd, q)
    ensures ResolveSocketPath(sha, uid, Some(wd), p) == ResolveSocketPath(sha, uid, Some(wd), q)
  {
    AbsOfCleanIsCanon(Some(wd), p);
    AbsOfCleanIsCanon(Some(wd), q);
  }

  // ----- client and daemon -----

  function LastSegment(p: string): string {
    Last(Segments(p))
  }

  lemma CanonOfParent(wd: string, p: string)
    ensures Canon(wd, p) == Push(true, Canon(wd, Parent(p)), LastSegment(p))
  {
    hide Segments, Parent, Push;
    SegmentsOfParent(p);
    var base := (if IsAbs(p) then [] else Segments(wd));
    var front := base + Front(Segments(p));
    assert base + Segments(p) == front + [LastSegment(p)];
    assert base + Segments(Parent(p)) == front + [""];
    ReduceLast(front, LastSegment(p));
    ReduceLast(front, "");
    PushNothing(Reduce(true, [], front));
  }

  lemma ReduceLast(front: seq<string>, x: string)
    ensures Reduce(true, [], front + [x]) == Push(true, Reduce(true, [], front), x)
  {
    hide Push;
    assert Front(front + [x]) == front;
  }

  lemma PushNothing(out: seq<string>)
    ensures Push(true, out, "") == out
  {
  }

  /** The name the daemon works out: the directory's canonical name, and the socket's own. */
  lemma DaemonCanonical(sha: Hasher, uid: Word, wd: Option<string>, p: string)
    requires Host(wd) && (wd.Some? || IsAbs(p))
    ensures var base := if wd.Some? then wd.value else "";
            var path := Render(true, Canon(base, Parent(p)) + [SOCKET_NAME]);
            DaemonHome(p) != "" && DaemonSocket(sha, uid, wd,
                DaemonHome(p)) == Some(ResolveSocketPath(sha, uid, wd, path))
  {
    hide ResolveSocketPath, Clean, Parent, Segments, Join, Render, Canon;
    var base := if wd.Some? then wd.value else "";
    SegmentsOfParent(p);
    AbsOfCleanIsCanon(wd, Parent(p));
    CanonIsNames(base, Parent(p));
    JoinOfName(Canon(base, Parent(p)), SOCKET_NAME);
    CleanNotEmpty(Parent(p));
  }

  lemma CleanNotEmpty(p: string)
    ensures Clean(p) != ""
  {
    if !IsAbs(p) {
      var r := Reduce(false, [], Segments(p));
      if r != [] {
        SegmentsHaveNoSlash(p);
        ReduceSettles(false, Segments(p));
        JoinStartsWith(r);
      }
    }
  }

  /**
    The canonical names agree exactly if the client's path, as it was written, ends in "embedding.sock":
    a trailing slash, a "." or another file name send the daemon elsewhere.
  */
  lemma CanonicalNamesAgreeIff(wd: string, p: string)
    ensures Canon(wd, p) == Canon(wd, Parent(p)) + [SOCKET_NAME] <==> LastSegment(p) == SOCKET_NAME
  {
    CanonOfParent(wd, p);
    var d := Canon(wd, Parent(p));
    assert Push(true, d, LastSegment(p)) == d + [SOCKET_NAME] ==> |Push(true, d, LastSegment(p))| == |d| + 1;
    assert Last(d + [LastSegment(p)]) == LastSegment(p) && Last(d + [SOCKET_NAME]) == SOCKET_NAME;
  }

  /** The daemon a client launches binds the very path the client probes and dials. */
  lemma ClientMeetsDaemon(sha: Hasher, uid: Word, wd: Option<string>, p: string)
    requires Host(wd) && (wd.Some? || IsAbs(p)) && LastSegment(p) == SOCKET_NAME
    ensures DaemonSocket(sha, uid, wd, DaemonHome(p)) == Some(ResolveSocketPath(sha, uid, wd, p))
  {
    hide Canon, LastSegment;
    var base := if wd.Some? then wd.value else "";
    DaemonCanonical(sha, uid, wd, p);
    CanonicalNamesAgreeIff(base, p);
    ResolveOfCanon(sha, uid, wd, p);
  }

  lemma ResolveOfCanon(sha: Hasher, uid: Word, wd: Option<string>, p: string)
    requires Host(wd) && (wd.Some? || IsAbs(p))
    ensures var base := if wd.Some? then wd.value else "";
            ResolveSocketPath(sha, uid, wd, Render(true, Canon(base, p))) == ResolveSocketPath(sha, uid, wd, p)
  {
    var base := if wd.Some? then wd.value else "";
    AbsOfCleanIsCanon(wd, p);
    CanonIsNames(base, p);
    CleanOfRendered(Canon(base, p));
    SegmentsOfRooted(Canon(base, p));
  }

  lemma NamesWithSocket(dir: seq<string>)
    requires Names(dir)
    ensures Names(dir + [SOCKET_NAME])
  {
  }

  /** With both names below the limit, so that no alias is used, they meet only then. */
  lemma ShortPathsMeetIff(sha: Hasher, uid: Word, wd: Option<string>, p: string)
    requires Host(wd) && (wd.Some? || IsAbs(p))
    requires var base := if wd.Some? then wd.value else "";
             && |Render(true, Canon(base, p))| < SUN_PATH_LIMIT
             && |Render(true, Canon(base, Parent(p)) + [SOCKET_NAME])| < SUN_PATH_LIMIT
    ensures DaemonSocket(sha, uid, wd, DaemonHome(p)) == Some(ResolveSocketPath(sha, uid, wd, p)) <==>
              LastSegment(p) == SOCKET_NAME
  {
    hide Canon, LastSegment, Render, Parent, ResolveSocketPath, DaemonSocket, DaemonHome, Names;
    var base := if wd.Some? then wd.value else "";
    var mine, theirs := Canon(base, p), Canon(base, Parent(p)) + [SOCKET_NAME];
    DaemonCanonical(sha, uid, wd, p);
    CanonicalNamesAgreeIff(base, p);
    ResolveOfCanon(sha, uid, wd, p);
    CanonIsNames(base, p);
    CanonIsNames(base, Parent(p));
    NamesWithSocket(Canon(base, Parent(p)));
    ResolveOfRooted(sha, uid, wd, mine);
    ResolveOfRooted(sha, uid, wd, theirs);
    RenderInjective(mine, theirs);
  }
}
