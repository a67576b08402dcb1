/**
 * Go's lexical slash-path functions (package path): IsAbs, Clean and Join.
 *
 * Clean works on the '/'-separated segments: empty and "." segments vanish,
 * ".." removes the segment before it, a ".." with nothing left to remove is
 * dropped in a rooted path and kept otherwise, and an empty result is "."
 * (or "/" when rooted).
 */
module GoPath {
  import opened Strings

  predicate IsAbs(p: string)
  {
    |p| > 0 && p[0] == '/'
  }

  /** The effect of one segment on the segments kept so far. */
  function Step(acc: seq<string>, s: string, rooted: bool): seq<string>
  {
    if s == "" || s == "." then acc
    else if s == ".." then
      if |acc| > 0 && acc[|acc| - 1] != ".." then acc[..|acc| - 1]
      else if rooted then acc
      else acc + [".."]
    else acc + [s]
  }

  function Resolve(acc: seq<string>, segs: seq<string>, rooted: bool): seq<string>
    decreases |segs|
  {
    if |segs| == 0 then acc
    else Resolve(Step(acc, segs[0], rooted), segs[1..], rooted)
  }

  /** path.Clean */
  function Clean(p: string): string
  {
    var rooted := IsAbs(p);
    var kept := Resolve([], Split(p, '/'), rooted);
    if rooted then "/" + Join(kept, '/')
    else if |kept| == 0 then "."
    else Join(kept, '/')
  }

  /** path.Join: the cleaned '/'-join from the first non-empty element on; "" when all are empty. */
  function PathJoin(elems: seq<string>): (r: string)
    ensures r == "" <==> forall i :: 0 <= i < |elems| ==> elems[i] == ""
  {
    if |elems| == 0 then ""
    else if elems[0] != "" then CleanNonEmpty(Join(elems, '/')); Clean(Join(elems, '/'))
    else PathJoin(elems[1..])
  }

  /**
   * What Clean may produce: no empty, "." or slash-containing segments,
   * ".." segments only at the front, and none at all in a rooted path.
   */
  ghost predicate CleanSegments(st: seq<string>, rooted: bool)
  {
    && (forall i :: 0 <= i < |st| ==> st[i] != "" && st[i] != "." && NoSep(st[i], '/'))
    && (forall i, j :: 0 <= i < j < |st| && st[j] == ".." ==> st[i] == "..")
    && (rooted ==> forall i :: 0 <= i < |st| ==> st[i] != "..")
  }

  lemma StepKeepsClean(acc: seq<string>, s: string, rooted: bool)
    requires CleanSegments(acc, rooted) && NoSep(s, '/')
    ensures CleanSegments(Step(acc, s, rooted), rooted)
  {
    if s == ".." && !(|acc| > 0 && acc[|acc| - 1] != "..") && !rooted {
      assert forall i :: 0 <= i < |acc| ==> acc[i] == "..";
    }
  }

  lemma {:induction false} ResolveKeepsClean(acc: seq<string>, segs: seq<string>, rooted: bool)
    requires CleanSegments(acc, rooted)
    requires forall i :: 0 <= i < |segs| ==> NoSep(segs[i], '/')
    ensures CleanSegments(Resolve(acc, segs, rooted), rooted)
    decreases |segs|
  {
    if |segs| > 0 {
      StepKeepsClean(acc, segs[0], rooted);
      ResolveKeepsClean(Step(acc, segs[0], rooted), segs[1..], rooted);
    }
  }

  /** Resolving segments that are already clean changes nothing. */
  lemma {:induction false} ResolveOfClean(acc: seq<string>, rest: seq<string>, rooted: bool)
    requires CleanSegments(acc + rest, rooted)
    ensures Resolve(acc, rest, rooted) == acc + rest
    decreases |rest|
  {
    if |rest| == 0 {
      assert acc + rest == acc;
    } else {
      var s := rest[0];
      assert (acc + rest)[|acc|] == s;
      if s == ".." && |acc| > 0 {
        assert (acc + rest)[|acc| - 1] == acc[|acc| - 1];
      }
      assert Step(acc, s, rooted) == acc + [s];
      assert (acc + [s]) + rest[1..] == acc + rest;
      ResolveOfClean(acc + [s], rest[1..], rooted);
    }
  }

  function Kept(p: string): seq<string>
  {
    Resolve([], Split(p, '/'), IsAbs(p))
  }

  lemma KeptIsClean(p: string)
    ensures CleanSegments(Kept(p), IsAbs(p))
  {
    var parts := Split(p, '/');
    forall i | 0 <= i < |parts| ensures NoSep(parts[i], '/') {
    }
    ResolveKeepsClean([], parts, IsAbs(p));
  }

  /** Clean preserves whether a path is rooted. */
  lemma CleanKeepsRooted(p: string)
    ensures IsAbs(Clean(p)) <==> IsAbs(p)
  {
    var kept := Kept(p);
    if !IsAbs(p) && |kept| > 0 {
      KeptIsClean(p);
      assert Join(kept, '/')[0] == kept[0][0] by {
        JoinStartsWithFirst(kept, '/');
      }
    }
  }

  lemma {:induction false} JoinStartsWithFirst(parts: seq<string>, sep: char)
    requires |parts| > 0 && |parts[0]| > 0
    ensures |Join(parts, sep)| > 0 && Join(parts, sep)[0] == parts[0][0]
  {
    if |parts| > 1 {
      assert Join(parts, sep) == parts[0] + [sep] + Join(parts[1..], sep);
    }
  }

  /** A rooted path never keeps a ".." segment after cleaning. */
  lemma RootedCleanHasNoParent(p: string)
    requires IsAbs(p)
    ensures var segs := Split(Clean(p), '/');
            forall i :: 0 <= i < |segs| ==> segs[i] != ".."
  {
    var kept := Kept(p);
    KeptIsClean(p);
    var c := Clean(p);
    assert c == "/" + Join(kept, '/');
    assert c[1..] == Join(kept, '/');
    assert Split(c, '/') == [""] + Split(Join(kept, '/'), '/');
    if |kept| > 0 {
      SplitJoin(kept, '/');
    }
  }

  /** Cleaning twice is cleaning once. */
  lemma CleanIdempotent(p: string)
    ensures Clean(Clean(p)) == Clean(p)
  {
    var kept := Kept(p);
    var rooted := IsAbs(p);
    KeptIsClean(p);
    var c := Clean(p);
    CleanKeepsRooted(p);
    if rooted {
      assert c[1..] == Join(kept, '/');
      assert Split(c, '/') == [""] + Split(Join(kept, '/'), '/');
      if |kept| > 0 {
        SplitJoin(kept, '/');
        assert Resolve([], Split(c, '/'), true) == Resolve([], kept, true);
        assert [] + kept == kept;
        ResolveOfClean([], kept, true);
      } else {
        assert c == "/";
        assert Split("", '/') == [""];
        assert Split(c, '/') == ["", ""];
        assert Resolve([], [""], true) == [];
        assert Resolve([], ["", ""], true) == [];
      }
    } else if |kept| == 0 {
      CleanOfDot();
    } else {
      SplitJoin(kept, '/');
      assert [] + kept == kept;
      ResolveOfClean([], kept, false);
    }
  }

  /** Clean never returns the empty string. */
  lemma CleanNonEmpty(p: string)
    ensures |Clean(p)| > 0
  {
    var kept := Kept(p);
    if !IsAbs(p) && |kept| > 0 {
      KeptIsClean(p);
      JoinStartsWithFirst(kept, '/');
    }
  }

  lemma CleanOfDot()
    ensures Clean(".") == "."
    ensures Clean("") == "."
  {
    SplitSingle('.', '/');
    assert Split("", '/') == [""];
  }

  lemma SplitSingle(c: char, sep: char)
    requires c != sep
    ensures Split([c], sep) == [[c]]
  {
    assert [c][1..] == "";
    var rest := Split("", sep);
    assert rest == [""];
    assert [c] + rest[0] == [c];
    assert rest[1..] == [];
  }
}
