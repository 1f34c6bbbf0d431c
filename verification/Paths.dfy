/** Lexical path handling: filepath.Clean, Join and Dir on Unix, and strings.Replace of one occurrence. */
module Paths {
  import opened Basics

  const SLASH: char := '/'

  /** A path element that cleaning keeps wherever it stands. */
  predicate Proper(element: string)
  {
    element != "" && element != "." && element != ".." && SLASH !in element
  }

  predicate AllProper(elements: seq<string>)
  {
    forall e <- elements :: Proper(e)
  }

  /** The text between slashes; one element more than there are slashes. */
  function Split(path: string): (r: seq<string>)
    ensures r != []
    ensures forall e <- r :: SLASH !in e
  {
    if path == "" then [""] else Grown(path[0], Split(path[1..]))
  }

  /** One more character in front: a slash opens a new element, anything else extends the first. */
  function Grown(c: char, elements: seq<string>): (r: seq<string>)
    requires elements != []
    ensures r != []
    ensures (forall e <- elements :: SLASH !in e) ==> forall e <- r :: SLASH !in e
  {
    if c == SLASH then [""] + elements
    else
      assert elements[0] in elements;
      [[c] + elements[0]] + elements[1..]
  }

  function Joined(elements: seq<string>): string
  {
    Join(elements, "/")
  }

  /** What one more element does to a normal form: nothing, another step down, or one taken back. */
  function Extended(normal: seq<string>, e: string, rooted: bool): seq<string>
  {
    if e == "" || e == "." then normal
    else if e != ".." then normal + [e]
    else if normal != [] && normal[|normal| - 1] != ".." then normal[..|normal| - 1]
    else if rooted then normal
    else normal + [".."]
  }

  /** Elements one by one: empty ones and dots go, a double dot takes back what it can. */
  function Normal(elements: seq<string>, rooted: bool): (r: seq<string>)
    ensures forall e <- r :: e != "" && e != "." && (e in elements || e == "..")
    ensures rooted ==> ".." !in r
    ensures forall i :: 0 < i < |r| && r[i] == ".." ==> r[i - 1] == ".."
    decreases |elements|
  {
    if elements == [] then []
    else
      var n := |elements| - 1;
      var before := Normal(elements[..n], rooted);
      assert forall e <- elements[..n] :: e in elements;
      assert forall e <- before :: e in elements || e == "..";
      var r := Extended(before, elements[n], rooted);
      assert forall e <- r :: e in before || e == elements[n];
      r
  }

  predicate Rooted(path: string)
  {
    path != "" && path[0] == SLASH
  }

  /** filepath.Clean */
  function Clean(path: string): (r: string)
    ensures r != ""
  {
    var normal := Normal(Split(path), Rooted(path));
    if Rooted(path) then "/" + Joined(normal)
    else if normal == [] then "."
    else
      NormalIsNotEmpty(Split(path));
      Joined(normal)
  }

  lemma NormalIsNotEmpty(elements: seq<string>)
    requires Normal(elements, false) != []
    ensures Joined(Normal(elements, false)) != ""
  {
    var normal := Normal(elements, false);
    assert normal[0] in normal;
  }

  /** filepath.Join of two elements. */
  function JoinPaths(a: string, b: string): string
  {
    if a != "" then Clean(a + "/" + b) else if b != "" then Clean(b) else ""
  }

  /** The path up to and including its last slash. */
  function UpToSlash(path: string): string
  {
    if path == "" || path[|path| - 1] == SLASH then path else UpToSlash(path[..|path| - 1])
  }

  /** filepath.Dir */
  function Dir(path: string): string
  {
    Clean(UpToSlash(path))
  }

  /** strings.Replace with a count of one: the first occurrence, which for an empty old is the start. */
  function ReplaceFirst(s: string, old_: string, new_: string): string
    decreases |s|
  {
    if |s| < |old_| then s
    else if s[..|old_|] == old_ then new_ + s[|old_|..]
    else if s == "" then s
    else [s[0]] + ReplaceFirst(s[1..], old_, new_)
  }

  // Splitting and joining.

  lemma {:induction false} SplitElement(e: string)
    requires SLASH !in e
    ensures Split(e) == [e]
  {
    if e != "" {
      SplitElement(e[1..]);
      assert e[0] in e;
      assert e == [e[0]] + e[1..];
    }
  }

  lemma GrownAppend(c: char, a: seq<string>, b: seq<string>)
    requires a != []
    ensures Grown(c, a + b) == Grown(c, a) + b
  {
  }

  lemma {:induction false} SplitAtSlash(a: string, b: string)
    ensures Split(a + "/" + b) == Split(a) + Split(b)
  {
    hide Grown;
    var s := a + "/" + b;
    if a == "" {
      assert s[0] == SLASH && s[1..] == b;
      SlashGrows(b);
    } else {
      SplitAtSlash(a[1..], b);
      assert s[0] == a[0] && s[1..] == a[1..] + "/" + b;
      GrownAppend(a[0], Split(a[1..]), Split(b));
    }
  }

  lemma SlashGrows(b: string)
    ensures Grown(SLASH, Split(b)) == Split("") + Split(b)
  {
  }

  /** Elements free of slashes are found again in their joined form. */
  lemma {:induction false} SplitJoined(elements: seq<string>)
    requires elements != [] && forall e <- elements :: SLASH !in e
    ensures Split(Joined(elements)) == elements
  {
    assert elements[0] in elements;
    SplitElement(elements[0]);
    if |elements| > 1 {
      SplitJoined(elements[1..]);
      SplitAtSlash(elements[0], Joined(elements[1..]));
      assert elements == [elements[0]] + elements[1..];
    }
  }

  /** Proper elements pass through normalisation untouched. */
  lemma {:induction false} NormalKeepsProper(before: seq<string>, after: seq<string>, rooted: bool)
    requires AllProper(after)
    ensures Normal(before + after, rooted) == Normal(before, rooted) + after
    decreases |after|
  {
    var all := before + after;
    if after == [] {
      assert all == before;
    } else {
      var n := |after| - 1;
      assert all[..|all| - 1] == before + after[..n];
      assert after[n] in after;
      NormalKeepsProper(before, after[..n], rooted);
      assert after == after[..n] + [after[n]];
    }
  }

  /** A path that is its own clean form, relative, not "." and not leading out of its directory. */
  predicate InsidePath(path: string)
  {
    && path != "" && path != "." && path[0] != SLASH
    && Clean(path) == path
    && path != ".." && !(|path| > 2 && path[..3] == "../")
  }

  /** Such a path is made of proper elements. */
  lemma InsideIsProper(path: string)
    requires InsidePath(path)
    ensures AllProper(Split(path))
  {
    var normal := Normal(Split(path), false);
    assert normal != [];
    assert path == Joined(normal);
    forall e <- normal ensures SLASH !in e {
      assert e in Split(path) || e == "..";
    }
    SplitJoined(normal);
    assert normal[0] != ".." by {
      LeadsOut(normal);
    }
    NoneAfterFirst(normal);
  }

  lemma LeadsOut(elements: seq<string>)
    requires elements != []
    ensures elements[0] == ".." ==>
              Joined(elements) == ".." || (|Joined(elements)| > 2 && Joined(elements)[..3] == "../")
  {
    if elements[0] == ".." && |elements| > 1 {
      assert Joined(elements) == ".." + "/" + Joined(elements[1..]);
    }
  }

  lemma {:induction false} NoneAfterFirst(r: seq<string>)
    requires r != [] && r[0] != ".."
    requires forall i :: 0 < i < |r| && r[i] == ".." ==> r[i - 1] == ".."
    ensures ".." !in r
  {
    if |r| > 1 {
      NoneAfterFirst(r[..|r| - 1]);
      assert r == r[..|r| - 1] + [r[|r| - 1]];
      assert r[|r| - 2] in r[..|r| - 1];
    }
  }

  lemma {:induction false} JoinedAppend(a: seq<string>, b: seq<string>)
    requires a != [] && b != []
    ensures Joined(a + b) == Joined(a) + "/" + Joined(b)
  {
    if |a| == 1 {
      assert (a + b)[1..] == b;
    } else {
      assert (a + b)[1..] == a[1..] + b;
      JoinedAppend(a[1..], b);
    }
  }

  /** Joining a context with a path inside it appends the path to the clean context. */
  lemma JoinInside(context: string, path: string)
    requires Rooted(context) && InsidePath(path)
    ensures JoinPaths(context, path) == (if Clean(context) == "/" then "/" + path else Clean(context) + "/" + path)
  {
    hide Split, Normal, Join, AllProper;
    InsideIsProper(path);
    SplitAtSlash(context, path);
    NormalKeepsProper(Split(context), Split(path), true);
    var outer, inner := Normal(Split(context), true), Split(path);
    InsideJoined(path);
    assert Rooted(context + "/" + path);
    assert JoinPaths(context, path) == "/" + Joined(outer + inner);
    assert Clean(context) == "/" + Joined(outer);
    if outer == [] {
      assert outer + inner == inner;
      NothingJoined();
    } else {
      JoinedAppend(outer, inner);
      assert "/" + (Joined(outer) + "/" + Joined(inner)) == "/" + Joined(outer) + "/" + path;
      assert outer[0] in outer;
      RootedJoined(outer);
    }
  }

  lemma NothingJoined()
    ensures "/" + Joined([]) == "/"
  {
  }

  lemma InsideJoined(path: string)
    requires InsidePath(path)
    ensures Joined(Split(path)) == path
  {
    InsideIsProper(path);
    NormalKeepsProper([], Split(path), false);
    assert [] + Split(path) == Split(path);
  }

  lemma RootedJoined(elements: seq<string>)
    requires elements != [] && elements[0] != ""
    ensures "/" + Joined(elements) != "/"
  {
  }

  /** A context that clean-up leaves alone and that is not the root. */
  predicate GoodContext(context: string)
  {
    Rooted(context) && Clean(context) == context && context != "/"
  }

  const CONTEXT: string := "${CONTEXT}"

  /**
   A source inside an absolute context is rewritten to the same path under ${CONTEXT} exactly
   when the context is given in clean form and is not the root.
   */
  lemma RelocatedIff(context: string, path: string)
    requires Rooted(context) && InsidePath(path)
    ensures ReplaceFirst(JoinPaths(context, path), context, CONTEXT) == CONTEXT + "/" + path <==> GoodContext(context)
  {
    hide Clean, JoinPaths, InsidePath;
    JoinInside(context, path);
    var joined := JoinPaths(context, path);
    var r := ReplaceFirst(joined, context, CONTEXT);
    CleanRooted(context);
    assert joined[0] == SLASH;
    var suffix := "/" + path;
    assert CONTEXT + "/" + path == CONTEXT + suffix && (CONTEXT + suffix)[0] == '$';
    assert GoodContext(context) ==> joined == context + suffix;
    assert (context + suffix)[..|context|] == context && (context + suffix)[|context|..] == suffix;
    if |joined| >= |context| && joined[..|context|] == context {
      var rest := joined[|context|..];
      assert joined == context + rest;
      assert r == CONTEXT + rest;
      if r == CONTEXT + suffix {
        SamePrefix(CONTEXT, rest, suffix);
        SameSuffix(context, if Clean(context) == "/" then "" else Clean(context), suffix);
      }
    } else {
      assert r[0] == SLASH;
    }
  }

  lemma CleanRooted(path: string)
    requires Rooted(path)
    ensures Rooted(Clean(path))
  {
  }

  lemma SameSuffix(a: string, b: string, suffix: string)
    requires a + suffix == b + suffix
    ensures a == b
  {
    assert |a| == |b|;
    assert (a + suffix)[..|a|] == a;
    assert (b + suffix)[..|b|] == b;
  }

  // Changing directory, with directories as lists of proper elements.

  /** How many directories a relative path climbs before it descends. */
  function Ups(normal: seq<string>): (k: nat)
    ensures k <= |normal|
    ensures forall i :: 0 <= i < k ==> normal[i] == ".."
    ensures k < |normal| ==> normal[k] != ".."
  {
    if normal == [] || normal[0] != ".." then 0 else 1 + Ups(normal[1..])
  }

  /** The directory k levels up; there is nothing above the root. */
  function Above(dir: seq<string>, k: nat): seq<string>
  {
    if k <= |dir| then dir[..|dir| - k] else []
  }

  lemma {:induction false} NoUpsLater(normal: seq<string>, i: nat)
    requires forall j :: 0 < j < |normal| && normal[j] == ".." ==> normal[j - 1] == ".."
    requires Ups(normal) <= i < |normal|
    ensures normal[i] != ".."
  {
    if i > Ups(normal) {
      NoUpsLater(normal, i - 1);
    }
  }

  lemma UpsIs(normal: seq<string>, k: nat)
    requires k <= |normal| && (forall i :: 0 <= i < k ==> normal[i] == "..") && (k < |normal| ==> normal[k] != "..")
    ensures Ups(normal) == k
  {
  }

  /** A relative path taken from a directory climbs as far as it says and appends the rest. */
  lemma {:induction false} NormalOnto(dir: seq<string>, elements: seq<string>)
    requires AllProper(dir) && forall e <- elements :: SLASH !in e
    ensures Normal(dir + elements, true) == Onto(dir, Normal(elements, false))
    decreases |elements|
  {
    hide Extended, Ups, Above, Onto;
    if elements == [] {
      NormalKeepsProper([], dir, true);
      assert [] + dir == dir && dir + [] == dir;
      NowhereElse(dir);
    } else {
      var n := |elements| - 1;
      var e := elements[n];
      assert e in elements;
      NormalOnto(dir, elements[..n]);
      assert (dir + elements)[..|dir + elements| - 1] == dir + elements[..n];
      OneMore(dir, Normal(elements[..n], false), e);
    }
  }

  lemma NowhereElse(dir: seq<string>)
    ensures Onto(dir, []) == dir
  {
  }

  predicate UpsFirst(normal: seq<string>)
  {
    forall j :: 0 < j < |normal| && normal[j] == ".." ==> normal[j - 1] == ".."
  }

  /** Where a normal relative path leads from a directory. */
  function Onto(dir: seq<string>, normal: seq<string>): seq<string>
  {
    Above(dir, Ups(normal)) + normal[Ups(normal)..]
  }

  lemma OneMore(dir: seq<string>, normal: seq<string>, e: string)
    requires AllProper(dir) && UpsFirst(normal)
    ensures Extended(Onto(dir, normal), e, true) == Onto(dir, Extended(normal, e, false))
  {
    hide Ups, Above, AllProper, Onto, UpsFirst;
    if e == "" || e == "." {
    } else if e != ".." {
      OneDown(dir, normal, e);
    } else if normal != [] && normal[|normal| - 1] != ".." {
      OneBack(dir, normal);
    } else {
      OneUp(dir, normal);
    }
  }

  lemma OneDown(dir: seq<string>, normal: seq<string>, e: string)
    requires e != ".."
    ensures Onto(dir, normal + [e]) == Onto(dir, normal) + [e]
  {
    hide Ups, Above;
    var k := Ups(normal);
    UpsIs(normal + [e], k);
    assert (normal + [e])[k..] == normal[k..] + [e];
  }

  lemma OneBack(dir: seq<string>, normal: seq<string>)
    requires normal != [] && normal[|normal| - 1] != ".."
    ensures var whole := Onto(dir, normal);
            whole != [] && whole[|whole| - 1] == normal[|normal| - 1]
            && Onto(dir, normal[..|normal| - 1]) == whole[..|whole| - 1]
  {
    hide Ups, Above;
    var k := Ups(normal);
    assert k < |normal|;
    var less := normal[..|normal| - 1];
    UpsIs(less, k);
    assert less[k..] == normal[k..][..|normal| - k - 1];
  }

  lemma OneUp(dir: seq<string>, normal: seq<string>)
    requires AllProper(dir) && UpsFirst(normal) && (normal == [] || normal[|normal| - 1] == "..")
    ensures Extended(Onto(dir, normal), "..", true) == Onto(dir, normal + [".."])
  {
    hide Ups;
    var k := |normal|;
    AllUps(normal);
    UpsIs(normal + [".."], k + 1);
    assert normal[k..] == [] && (normal + [".."])[k + 1..] == [];
    var whole := Onto(dir, normal);
    assert whole == Above(dir, k);
    assert Onto(dir, normal + [".."]) == Above(dir, k + 1);
    assert whole != [] ==> whole[|whole| - 1] == dir[|dir| - k - 1] && dir[|dir| - k - 1] in dir;
  }

  lemma AllUps(normal: seq<string>)
    requires forall j :: 0 < j < |normal| && normal[j] == ".." ==> normal[j - 1] == ".."
    requires normal == [] || normal[|normal| - 1] == ".."
    ensures Ups(normal) == |normal|
  {
    if Ups(normal) < |normal| {
      NoUpsLater(normal, |normal| - 1);
      assert false;
    }
  }

  /** cd: without an argument to the home directory, else to the path, taken from here if it is relative. */
  function Chdir(dir: seq<string>, target: string, home: seq<string>): seq<string>
  {
    if target == "" then home else Normal((if Rooted(target) then [] else dir) + Split(target), true)
  }

  /** Whether two directories make a difference to where a path leads. */
  predicate LeadsAlike(a: seq<string>, b: seq<string>, target: string)
  {
    || target == "" || Rooted(target)
    || var k := Ups(Normal(Split(target), false)); Above(a, k) == Above(b, k)
  }

  lemma ChdirSameIff(a: seq<string>, b: seq<string>, target: string, home: seq<string>)
    requires AllProper(a) && AllProper(b)
    ensures Chdir(a, target, home) == Chdir(b, target, home) <==> LeadsAlike(a, b, target)
  {
    hide Split, Normal, Ups, Above, AllProper;
    if target != "" && !Rooted(target) {
      var normal := Normal(Split(target), false);
      var k := Ups(normal);
      NormalOnto(a, Split(target));
      NormalOnto(b, Split(target));
      var x, y, z := Above(a, k), Above(b, k), normal[k..];
      assert |x + z| == |x| + |z| && |y + z| == |y| + |z|;
      if x + z == y + z {
        assert (x + z)[..|x|] == x && (y + z)[..|y|] == y;
      }
    }
  }

  /** Wherever cd leads is a proper directory. */
  lemma ChdirIsProper(dir: seq<string>, target: string, home: seq<string>)
    requires AllProper(dir) && AllProper(home)
    ensures AllProper(Chdir(dir, target, home))
  {
    if target != "" {
      var elements := (if Rooted(target) then [] else dir) + Split(target);
      forall e <- Normal(elements, true) ensures Proper(e) {
        assert e in elements;
        assert e in dir || e in Split(target);
      }
    }
  }
}
