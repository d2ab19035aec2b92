/**
  Slash-separated paths as Go's path/filepath treats them on Unix: Clean, Join, Dir, Abs and IsLocal,
  over strings, and the normal form that decides when two spellings are the same file name.
*/
module FilePath {
  import opened Wrappers

  // ----- segments -----

  /** What lies between the slashes; there is one more of them than there are slashes. */
  function Segments(s: string): (segs: seq<string>)
    ensures |segs| >= 1
  {
    if s == "" then [""]
    else
      var before, c := Segments(s[..|s| - 1]), s[|s| - 1];
      if c == '/' then before + [""] else before[|before| - 1 := before[|before| - 1] + [c]]
  }

  function JoinSlash(segs: seq<string>): string {
    if segs == [] then "" else if |segs| == 1 then segs[0] else JoinSlash(segs[..|segs| - 1]) + "/" + segs[|segs| - 1]
  }

  function Last<T>(s: seq<T>): T
    requires s != []
  {
    s[|s| - 1]
  }

  function Front<T>(s: seq<T>): seq<T>
    requires s != []
  {
    s[..|s| - 1]
  }

  lemma {:induction false} SegmentsOfAppend(a: string, b: string)
    ensures Segments(a + "/" + b) == Segments(a) + Segments(b)
  {
    if b == "" {
      assert (a + "/")[..|a|] == a && a + "/" + "" == a + "/";
    } else {
      SegmentsOfAppend(a, Front(b));
      assert Front(a + "/" + b) == a + "/" + Front(b) && Last(a + "/" + b) == Last(b);
    }
  }

  lemma {:induction false} NoSlashIsOneSegment(s: string)
    requires '/' !in s
    ensures Segments(s) == [s]
  {
    if s != "" {
      NoSlashIsOneSegment(Front(s));
      assert s == Front(s) + [Last(s)];
    }
  }

  lemma {:induction false} SegmentsHaveNoSlash(s: string)
    ensures forall i :: 0 <= i < |Segments(s)| ==> '/' !in Segments(s)[i]
  {
    if s != "" {
      SegmentsHaveNoSlash(Front(s));
    }
  }

  lemma {:induction false} SegmentsOfJoin(segs: seq<string>)
    requires segs != [] && forall i :: 0 <= i < |segs| ==> '/' !in segs[i]
    ensures Segments(JoinSlash(segs)) == segs
  {
    NoSlashIsOneSegment(Last(segs));
    if |segs| > 1 {
      SegmentsOfJoin(Front(segs));
      SegmentsOfAppend(JoinSlash(Front(segs)), Last(segs));
      assert segs == Front(segs) + [Last(segs)];
    }
  }

  // ----- Clean -----

  predicate IsAbs(p: string) {
    p != "" && p[0] == '/'
  }

  /** One more segment: "" and "." change nothing, ".." takes the last name away; at the root it is dropped. */
  function Push(rooted: bool, out: seq<string>, x: string): seq<string> {
    if x == "" || x == "." then out
    else if x != ".." then out + [x]
    else if out != [] && Last(out) != ".." then Front(out)
    else if rooted then out
    else out + [".."]
  }

  function Reduce(rooted: bool, out: seq<string>, segs: seq<string>): seq<string> {
    if segs == [] then out else Push(rooted, Reduce(rooted, out, Front(segs)), Last(segs))
  }

  function Render(rooted: bool, segs: seq<string>): string {
    if rooted then "/" + JoinSlash(segs) else if segs == [] then "." else JoinSlash(segs)
  }

  function Clean(p: string): string {
    Render(IsAbs(p), Reduce(IsAbs(p), [], Segments(p)))
  }

  function Join(a: string, b: string): string {
    if a == "" && b == "" then "" else if a == "" then Clean(b) else if b == "" then Clean(a) else Clean(a + "/" + b)
  }

  /** Everything up to the last slash, that one included. */
  function Parent(p: string): string {
    if p == "" || Last(p) == '/' then p else Parent(Front(p))
  }

  function Dir(p: string): string {
    Clean(Parent(p))
  }

  /** `wd` is the working directory, if it can be told. */
  function Abs(wd: Option<string>, p: string): Option<string> {
    if IsAbs(p) then Some(Clean(p)) else if wd == None then None else Some(Join(wd.value, p))
  }

  predicate IsLocal(p: string) {
    p != "" && !IsAbs(p) && (var r := Reduce(false, [], Segments(p)); r == [] || r[0] != "..")
  }

  // ----- the normal form -----

  predicate Name(x: string) {
    x != "" && x != "." && x != ".." && '/' !in x
  }

  predicate Names(segs: seq<string>) {
    forall i :: 0 <= i < |segs| ==> Name(segs[i])
  }

  /** Names, after any number of "..". */
  predicate Settled(segs: seq<string>) {
    && (forall i :: 0 <= i < |segs| ==> Name(segs[i]) || segs[i] == "..")
    && (forall i, j :: 0 <= i < j < |segs| && segs[j] == ".." ==> segs[i] == "..")
  }

  lemma {:induction false} ReduceSettles(rooted: bool, segs: seq<string>)
    requires forall i :: 0 <= i < |segs| ==> '/' !in segs[i]
    ensures Settled(Reduce(rooted, [], segs)) && (rooted ==> Names(Reduce(rooted, [], segs)))
  {
    if segs != [] {
      ReduceSettles(rooted, Front(segs));
    }
  }

  lemma {:induction false} ReduceKeepsNames(out: seq<string>, segs: seq<string>)
    requires Names(out) && forall i :: 0 <= i < |segs| ==> '/' !in segs[i]
    ensures Names(Reduce(true, out, segs))
  {
    if segs != [] {
      ReduceKeepsNames(out, Front(segs));
    }
  }

  lemma {:induction false} SettledIsFixed(segs: seq<string>)
    requires Settled(segs)
    ensures Reduce(false, [], segs) == segs
  {
    if segs != [] {
      SettledIsFixed(Front(segs));
      assert segs == Front(segs) + [Last(segs)];
    }
  }

  lemma {:induction false} NamesArePushed(rooted: bool, out: seq<string>, segs: seq<string>)
    requires Names(segs)
    ensures Reduce(rooted, out, segs) == out + segs
  {
    if segs != [] {
      NamesArePushed(rooted, out, Front(segs));
      assert segs == Front(segs) + [Last(segs)];
      assert out + segs == out + Front(segs) + [Last(segs)];
    }
  }

  lemma {:induction false} ReduceOfAppend(rooted: bool, out: seq<string>, a: seq<string>, b: seq<string>)
    ensures Reduce(rooted, out, a + b) == Reduce(rooted, Reduce(rooted, out, a), b)
  {
    if b == [] {
      assert a + b == a;
    } else {
      ReduceOfAppend(rooted, out, a, Front(b));
      assert Front(a + b) == a + Front(b) && Last(a + b) == Last(b);
    }
  }

  /** Cleaning a relative path before it is appended to a directory makes no difference. */
  lemma {:induction false} ReduceTwice(out: seq<string>, segs: seq<string>)
    requires Names(out) && forall i :: 0 <= i < |segs| ==> '/' !in segs[i]
    ensures Reduce(true, out, Reduce(false, [], segs)) == Reduce(true, out, segs)
  {
    if segs != [] {
      var r := Reduce(false, [], Front(segs));
      ReduceTwice(out, Front(segs));
      ReduceSettles(false, Front(segs));
      ReduceKeepsNames(out, Front(segs));
      if Last(segs) == ".." && r != [] && Last(r) != ".." {
        assert r == Front(r) + [Last(r)] && Name(Last(r));
        assert Reduce(true, out, r) == Reduce(true, out, Front(r)) + [Last(r)];
      } else if Push(false, r, Last(segs)) != r {
        assert Front(r + [Last(segs)]) == r;
      }
    }
  }

  /** The absolute name a path stands for, as a list of names. */
  function Canon(wd: string, p: string): seq<string> {
    Reduce(true, [], (if IsAbs(p) then [] else Segments(wd)) + Segments(p))
  }

  lemma CanonIsNames(wd: string, p: string)
    ensures Names(Canon(wd, p))
  {
    SegmentsHaveNoSlash(wd);
    SegmentsHaveNoSlash(p);
    ReduceSettles(true, (if IsAbs(p) then [] else Segments(wd)) + Segments(p));
  }

  lemma SegmentsOfRooted(segs: seq<string>)
    requires Names(segs)
    ensures IsAbs(Render(true, segs)) && Reduce(true, [], Segments(Render(true, segs))) == segs
  {
    var body := JoinSlash(segs);
    SegmentsOfAppend("", body);
    assert "" + "/" + body == "/" + body;
    if segs == [] {
      assert Segments("/" + body) == [""] + [""];
      assert Front([""] + [""]) == [""] && Front([""]) == [];
    } else {
      SegmentsOfJoin(segs);
      ReduceOfAppend(true, [], [""], segs);
      assert Front([""]) == [];
      NamesArePushed(true, [], segs);
    }
  }

  /** A rendered name is its own cleaned form. */
  lemma CleanOfRendered(segs: seq<string>)
    requires Names(segs)
    ensures Clean(Render(true, segs)) == Render(true, segs)
  {
    SegmentsOfRooted(segs);
  }

  lemma RenderInjective(a: seq<string>, b: seq<string>)
    requires Names(a) && Names(b)
    ensures Render(true, a) == Render(true, b) <==> a == b
  {
    SegmentsOfRooted(a);
    SegmentsOfRooted(b);
  }

  lemma CleanAbs(p: string)
    requires IsAbs(p)
    ensures Clean(p) == Render(true, Canon("", p))
  {
    assert [] + Segments(p) == Segments(p);
  }

  lemma SegmentsOfCleanRelative(p: string)
    requires !IsAbs(p)
    ensures !IsAbs(Clean(p))
    ensures Segments(Clean(p)) == Reduce(false, [], Segments(p))
              || (Segments(Clean(p)) == ["."] && Reduce(false, [], Segments(p)) == [])
  {
    SegmentsHaveNoSlash(p);
    ReduceSettles(false, Segments(p));
    var r := Reduce(false, [], Segments(p));
    if r == [] {
      NoSlashIsOneSegment(".");
    } else {
      SegmentsOfJoin(r);
      JoinStartsWith(r);
    }
  }

  lemma {:induction false} JoinStartsWith(segs: seq<string>)
    requires segs != [] && segs[0] != ""
    ensures JoinSlash(segs) != "" && JoinSlash(segs)[0] == segs[0][0]
  {
    if |segs| > 1 {
      JoinStartsWith(Front(segs));
    }
  }

  /** Cleaning twice is cleaning once. */
  lemma CleanIdempotent(p: string)
    ensures Clean(Clean(p)) == Clean(p)
  {
    SegmentsHaveNoSlash(p);
    ReduceSettles(IsAbs(p), Segments(p));
    if IsAbs(p) {
      SegmentsOfRooted(Reduce(true, [], Segments(p)));
    } else {
      SegmentsOfCleanRelative(p);
      var r := Reduce(false, [], Segments(p));
      if r == [] {
        assert Front(["."]) == [];
      } else {
        SettledIsFixed(r);
      }
    }
  }

  lemma JoinOfName(dir: seq<string>, x: string)
    requires Names(dir) && Name(x)
    ensures Join(Render(true, dir), x) == Render(true, dir + [x])
  {
    SegmentsOfRooted(dir);
    assert x[0] != '/';
    JoinIsCanon(Render(true, dir), x);
    NoSlashIsOneSegment(x);
    ReduceOfAppend(true, [], Segments(Render(true, dir)), [x]);
    assert Front([x]) == [];
  }

  lemma JoinIsCanon(wd: string, p: string)
    requires IsAbs(wd) && !IsAbs(p)
    ensures Join(wd, p) == Render(true, Canon(wd, p))
  {
    if p == "" {
      ReduceOfAppend(true, [], Segments(wd), [""]);
      assert Front([""]) == [];
    } else {
      SegmentsOfAppend(wd, p);
      assert IsAbs(wd + "/" + p);
    }
  }

  /** Whatever the spelling, cleaning and then making absolute gives the canonical name. */
  lemma AbsOfCleanIsCanon(wd: Option<string>, p: string)
    requires (wd.Some? ==> IsAbs(wd.value)) && (wd.Some? || IsAbs(p))
    ensures Abs(wd, Clean(p)) == Some(Render(true, Canon(if wd.Some? then wd.value else "", p)))
  {
    if IsAbs(p) {
      CleanAbs(p);
      CanonIsNames("", p);
      CleanOfRendered(Canon("", p));
      SegmentsOfRooted(Canon("", p));
      assert Canon("", p) == Canon(if wd.Some? then wd.value else "", p);
    } else {
      SegmentsOfCleanRelative(p);
      JoinIsCanon(wd.value, Clean(p));
      CanonOfClean(wd.value, p);
    }
  }

  lemma CanonOfClean(wd: string, p: string)
    requires IsAbs(wd) && !IsAbs(p)
    ensures Canon(wd, Clean(p)) == Canon(wd, p)
  {
    SegmentsHaveNoSlash(p);
    SegmentsHaveNoSlash(wd);
    var base := Reduce(true, [], Segments(wd));
    ReduceSettles(true, Segments(wd));
    ReduceTwice(base, Segments(p));
    ReduceOfAppend(true, [], Segments(wd), Segments(p));
    SegmentsOfCleanRelative(p);
    ReduceOfAppend(true, [], Segments(wd), Segments(Clean(p)));
    if Segments(Clean(p)) == ["."] {
      assert Front(["."]) == [];
    }
  }

  lemma {:induction false} SegmentsOfParent(p: string)
    ensures Segments(Parent(p)) == Front(Segments(p)) + [""]
    ensures IsAbs(Parent(p)) == IsAbs(p)
  {
    if p != "" && Last(p) != '/' {
      SegmentsOfParent(Front(p));
      assert Front(Segments(p)) == Front(Segments(Front(p)));
    }
  }

  /** A local name stays below the directory it is joined to. */
  lemma LocalStaysInside(dir: seq<string>, name: string)
    requires Names(dir) && IsLocal(name)
    ensures exists rest: seq<string> :: Names(rest) && Join(Render(true, dir), name) == Render(true, dir + rest)
  {
    var wd := Render(true, dir);
    var rest := Reduce(false, [], Segments(name));
    SegmentsOfRooted(dir);
    JoinIsCanon(wd, name);
    SegmentsHaveNoSlash(name);
    ReduceSettles(false, Segments(name));
    SettledLocalIsNames(rest);
    ReduceTwice(dir, Segments(name));
    ReduceOfAppend(true, [], Segments(wd), Segments(name));
    NamesArePushed(true, dir, rest);
  }

  lemma {:induction false} SettledLocalIsNames(segs: seq<string>)
    requires Settled(segs) && (segs == [] || segs[0] != "..")
    ensures Names(segs)
  {
    if segs != [] {
      SettledLocalIsNames(Front(segs));
      assert segs == Front(segs) + [Last(segs)];
    }
  }

  // ----- what a path means, step by step -----

  /** How far below its beginning a walk along these segments ends: ".." is one up, a name one down. */
  function Depth(segs: seq<string>): int {
    if segs == [] then 0
    else
      var x := Last(segs);
      Depth(Front(segs)) + if x == "" || x == "." then 0 else if x == ".." then -1 else 1
  }

  /** The walk never gets above its beginning. */
  predicate StaysBelow(segs: seq<string>) {
    (segs == [] || StaysBelow(Front(segs))) && Depth(segs) >= 0
  }

  /** What is left after cleaning is names, as many as the walk goes down, exactly if it stays below. */
  lemma {:induction false} ReducedIsWalked(segs: seq<string>)
    requires forall i :: 0 <= i < |segs| ==> '/' !in segs[i]
    ensures var r := Reduce(false, [], segs);
            && (StaysBelow(segs) ==> Names(r) && |r| == Depth(segs))
            && (!StaysBelow(segs) ==> r != [] && r[0] == "..")
  {
    if segs != [] {
      ReducedIsWalked(Front(segs));
      ReduceSettles(false, Front(segs));
    }
  }

  /** A path is local exactly if it is neither empty nor absolute and never climbs above where it starts. */
  lemma LocalIffStaysBelow(p: string)
    ensures IsLocal(p) <==> p != "" && p[0] != '/' && StaysBelow(Segments(p))
  {
    SegmentsHaveNoSlash(p);
    ReducedIsWalked(Segments(p));
  }

  /** One more segment after a path, given as it would be written. */
  lemma CanonOfLonger(wd: string, p: string, x: string)
    requires IsAbs(p) && '/' !in x
    ensures IsAbs(p + "/" + x) && Canon(wd, p + "/" + x) == Push(true, Canon(wd, p), x)
  {
    hide Push;
    SegmentsOfAppend(p, x);
    NoSlashIsOneSegment(x);
    assert [] + Segments(p + "/" + x) == Segments(p) + [x] && [] + Segments(p) == Segments(p);
    assert Front(Segments(p) + [x]) == Segments(p);
  }

  /**
    What the canonical name of a longer path is: a name is added at its end, "." and a slash add nothing, ".."
    takes the last name away, and above the root there is nothing.
  */
  lemma LongerPaths(wd: string, p: string, x: string)
    requires IsAbs(p) && Name(x)
    ensures Canon(wd, p + "/" + x) == Canon(wd, p) + [x]
    ensures Canon(wd, p + "/" + ".") == Canon(wd, p) == Canon(wd, p + "/" + "")
    ensures Canon(wd, p + "/" + x + "/" + "..") == Canon(wd, p)
    ensures Canon(wd, p) == [] ==> Canon(wd, p + "/" + "..") == []
    ensures Canon(wd, "/") == []
  {
    hide Segments, Canon, Reduce;
    CanonOfLonger(wd, p, x);
    CanonOfLonger(wd, p, ".");
    CanonOfLonger(wd, p, "");
    CanonOfLonger(wd, p, "..");
    CanonOfLonger(wd, p + "/" + x, "..");
    assert Last(Canon(wd, p) + [x]) == x && Front(Canon(wd, p) + [x]) == Canon(wd, p);
    RootIsEmpty(wd);
  }

  lemma RootIsEmpty(wd: string)
    ensures Canon(wd, "/") == []
  {
    assert Segments("") == [""] && "/"[..0] == "";
    assert Segments("/") == ["", ""] && Front(["", ""]) == [""] && Front([""]) == [];
    assert [] + Segments("/") == Segments("/");
  }
}
