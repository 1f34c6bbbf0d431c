/** HashDir and HashFile: a hash that does not depend on the walk, and when computing it ends. */
module DirectoryHash {
  import opened Basics

  /** What a path is for lstat, and for a link what stat finds behind it. */
  datatype Node =
    | File(mode: nat, content: string)
    | Folder(entries: seq<Entry>)
    | LinkToFile(mode: nat, content: string)
    | LinkToFolder
    | Broken
  datatype Entry = Entry(name: string, node: Node)

  /** A path the walk collects because lstat does not call it a directory. */
  datatype Leaf = Leaf(path: string, node: Node)

  /** filepath.Walk: every entry that is not a directory itself, in the order of the entries. */
  function Walk(path: string, node: Node): (r: seq<Leaf>)
    ensures forall l <- r :: !l.node.Folder?
    ensures !node.Folder? ==> r == [Leaf(path, node)]
    decreases node, 1
  {
    if node.Folder? then WalkEntries(path, node.entries) else [Leaf(path, node)]
  }

  function WalkEntries(path: string, entries: seq<Entry>): (r: seq<Leaf>)
    ensures forall l <- r :: !l.node.Folder?
    decreases entries, 0
  {
    if entries == [] then []
    else Walk(path + "/" + entries[0].name, entries[0].node) + WalkEntries(path, entries[1..])
  }

  // Sorting by path.

  /** The order of sort.Strings. */
  predicate Before(a: string, b: string)
  {
    if a == "" then true
    else if b == "" then false
    else a[0] < b[0] || (a[0] == b[0] && Before(a[1..], b[1..]))
  }

  lemma {:induction false} BeforeIsTotal(a: string, b: string)
    ensures Before(a, b) || Before(b, a)
    decreases |a|
  {
    if a != "" && b != "" && a[0] == b[0] {
      BeforeIsTotal(a[1..], b[1..]);
    }
  }

  lemma {:induction false} BeforeIsAntisymmetric(a: string, b: string)
    requires Before(a, b) && Before(b, a)
    ensures a == b
    decreases |a|
  {
    if a != "" {
      BeforeIsAntisymmetric(a[1..], b[1..]);
      assert a == [a[0]] + a[1..] && b == [b[0]] + b[1..];
    }
  }

  lemma {:induction false} BeforeIsTransitive(a: string, b: string, c: string)
    requires Before(a, b) && Before(b, c)
    ensures Before(a, c)
    decreases |a|
  {
    if a != "" && a[0] == b[0] == c[0] {
      BeforeIsTransitive(a[1..], b[1..], c[1..]);
    }
  }

  predicate Sorted(leaves: seq<Leaf>)
  {
    forall i, j :: 0 <= i < j < |leaves| ==> Before(leaves[i].path, leaves[j].path)
  }

  /** Different leaves have different paths. */
  predicate DistinctPaths(leaves: seq<Leaf>)
  {
    forall i, j :: 0 <= i < j < |leaves| ==> leaves[i].path != leaves[j].path
  }

  function Inserted(leaf: Leaf, sorted: seq<Leaf>): (r: seq<Leaf>)
    ensures multiset(r) == multiset(sorted) + multiset{leaf}
  {
    if sorted == [] then [leaf]
    else if Before(leaf.path, sorted[0].path) then [leaf] + sorted
    else
      assert sorted == [sorted[0]] + sorted[1..];
      [sorted[0]] + Inserted(leaf, sorted[1..])
  }

  function SortByPath(leaves: seq<Leaf>): (r: seq<Leaf>)
    ensures multiset(r) == multiset(leaves)
  {
    if leaves == [] then []
    else
      assert leaves == [leaves[0]] + leaves[1..];
      Inserted(leaves[0], SortByPath(leaves[1..]))
  }

  lemma {:induction false} InsertedIsSorted(leaf: Leaf, sorted: seq<Leaf>)
    requires Sorted(sorted)
    ensures Sorted(Inserted(leaf, sorted))
  {
    hide Before;
    if sorted != [] {
      if Before(leaf.path, sorted[0].path) {
        forall j | 0 < j < |sorted| ensures Before(leaf.path, sorted[j].path) {
          BeforeIsTransitive(leaf.path, sorted[0].path, sorted[j].path);
        }
      } else {
        BeforeIsTotal(leaf.path, sorted[0].path);
        var rest := Inserted(leaf, sorted[1..]);
        InsertedIsSorted(leaf, sorted[1..]);
        forall j | 0 <= j < |rest| ensures Before(sorted[0].path, rest[j].path) {
          assert rest[j] in multiset(rest);
          if rest[j] != leaf {
            assert rest[j] in sorted[1..];
          }
        }
      }
    }
  }

  lemma {:induction false} SortIsSorted(leaves: seq<Leaf>)
    ensures Sorted(SortByPath(leaves))
  {
    if leaves != [] {
      SortIsSorted(leaves[1..]);
      InsertedIsSorted(leaves[0], SortByPath(leaves[1..]));
    }
  }

  /** Two sorted lists of the same leaves are the same list, when paths do not repeat. */
  lemma {:induction false} SortedIsUnique(a: seq<Leaf>, b: seq<Leaf>)
    requires Sorted(a) && Sorted(b) && multiset(a) == multiset(b) && DistinctPaths(a)
    ensures a == b
  {
    hide Sorted, DistinctPaths;
    assert |multiset(a)| == |a| && |multiset(b)| == |b|;
    if a != [] {
      SameHead(a, b);
      WithoutHead(a);
      WithoutHead(b);
      SortedIsUnique(a[1..], b[1..]);
    }
  }

  lemma WithoutHead(a: seq<Leaf>)
    requires a != []
    ensures a == [a[0]] + a[1..] && multiset(a[1..]) == multiset(a) - multiset{a[0]}
    ensures Sorted(a) ==> Sorted(a[1..])
    ensures DistinctPaths(a) ==> DistinctPaths(a[1..])
  {
    hide Before;
    assert a == [a[0]] + a[1..];
  }

  lemma SameHead(a: seq<Leaf>, b: seq<Leaf>)
    requires Sorted(a) && Sorted(b) && multiset(a) == multiset(b) && DistinctPaths(a) && a != [] && b != []
    ensures a[0] == b[0]
  {
    hide Before;
    assert a[0] in multiset(b) && b[0] in multiset(a);
    var i :| 0 <= i < |b| && b[i] == a[0];
    var j :| 0 <= j < |a| && a[j] == b[0];
    if i > 0 && j > 0 {
      BeforeIsAntisymmetric(a[0].path, b[0].path);
    }
  }

  // Hashing.

  /** The hash of one file: its mode in decimal, then its content. */
  function FileHash(mode: nat, content: string, blake3: string -> string): string
  {
    blake3(Digits(mode) + content)
  }

  datatype Result = Hash(value: string) | Failed | Diverged

  /** HashFile and HashDir with a bound on their mutual calls; Diverged means that the bound was reached. */
  function HashFileIn(fuel: nat, path: string, node: Node, blake3: string -> string): Result
    decreases fuel, 0
  {
    match node
    case File(mode, content) => Hash(FileHash(mode, content, blake3))
    case LinkToFile(mode, content) => Hash(FileHash(mode, content, blake3))
    case Broken => Failed
    case _ => if fuel == 0 then Diverged else HashDirIn(fuel - 1, path, node, blake3)
  }

  function HashDirIn(fuel: nat, path: string, node: Node, blake3: string -> string): Result
    decreases fuel, 2
  {
    match StreamIn(fuel, SortByPath(Walk(path, node)), blake3)
    case Hash(stream) => Hash(blake3(stream))
    case r => r
  }

  /** What is fed to the directory's hasher: each path, then the hash of what is there. */
  function StreamIn(fuel: nat, leaves: seq<Leaf>, blake3: string -> string): Result
    decreases fuel, 1, |leaves|
  {
    if leaves == [] then Hash("")
    else
      match HashFileIn(fuel, leaves[0].path, leaves[0].node, blake3)
      case Hash(h) => Fed(leaves[0].path + h, StreamIn(fuel, leaves[1..], blake3))
      case r => r
  }

  /** A stream after what has been written already. */
  function Fed(written: string, r: Result): Result
  {
    match r
    case Hash(rest) => Hash(written + rest)
    case _ => r
  }

  /** Going through the leaves in order, no link to a directory comes up before a broken link does. */
  predicate Terminates(leaves: seq<Leaf>)
  {
    leaves == [] || leaves[0].node.Broken? || (!leaves[0].node.LinkToFolder? && Terminates(leaves[1..]))
  }

  /** A link to a directory is walked as itself and hashed as a directory, over and over. */
  lemma {:induction false} LinkDiverges(fuel: nat, path: string, blake3: string -> string)
    ensures HashDirIn(fuel, path, LinkToFolder, blake3) == Diverged
    ensures HashFileIn(fuel, path, LinkToFolder, blake3) == Diverged
  {
    var leaf := Leaf(path, LinkToFolder);
    assert Walk(path, LinkToFolder) == [leaf];
    assert SortByPath([leaf]) == [leaf];
    if fuel > 0 {
      LinkDiverges(fuel - 1, path, blake3);
    }
    assert StreamIn(fuel, [leaf], blake3) == Diverged;
  }

  lemma {:induction false} StreamEndsIff(fuel: nat, leaves: seq<Leaf>, blake3: string -> string)
    requires forall l <- leaves :: !l.node.Folder?
    ensures StreamIn(fuel, leaves, blake3).Diverged? <==> !Terminates(leaves)
    decreases |leaves|
  {
    if leaves != [] {
      assert leaves[0] in leaves;
      StreamEndsIff(fuel, leaves[1..], blake3);
      if leaves[0].node.LinkToFolder? {
        LinkDiverges(fuel, leaves[0].path, blake3);
      }
    }
  }

  /**
   The mutual recursion of HashDir and HashFile ends exactly when no link to a directory is met,
   in path order, before a file that cannot be read; no bound on the recursion helps otherwise.
   */
  lemma HashDirEndsIff(fuel: nat, path: string, node: Node, blake3: string -> string)
    ensures HashDirIn(fuel, path, node, blake3).Diverged? <==> !Terminates(SortByPath(Walk(path, node)))
  {
    var leaves := SortByPath(Walk(path, node));
    forall l <- leaves ensures !l.node.Folder? {
      assert l in multiset(leaves);
      assert l in Walk(path, node);
    }
    StreamEndsIff(fuel, leaves, blake3);
  }

  /** Every order in which the same leaves may be walked gives the same stream, and so the same hash. */
  lemma WalkOrderDoesNotMatter(fuel: nat, a: seq<Leaf>, b: seq<Leaf>, blake3: string -> string)
    requires multiset(a) == multiset(b) && DistinctPaths(a)
    ensures StreamIn(fuel, SortByPath(a), blake3) == StreamIn(fuel, SortByPath(b), blake3)
  {
    SortIsSorted(a);
    SortIsSorted(b);
    StillDistinct(a, SortByPath(a));
    SortedIsUnique(SortByPath(a), SortByPath(b));
  }

  lemma StillDistinct(a: seq<Leaf>, b: seq<Leaf>)
    requires multiset(a) == multiset(b) && DistinctPaths(a)
    ensures DistinctPaths(b)
  {
    forall i, j | 0 <= i < j < |b| ensures b[i].path != b[j].path {
      assert b[i] in multiset(a) && b[j] in multiset(a);
      var p :| 0 <= p < |a| && a[p] == b[i];
      var q :| 0 <= q < |a| && a[q] == b[j];
      OnceAt(a, p);
      assert b[i] == b[j] ==> multiset(b)[b[i]] >= 2 by {
        TwiceAt(b, i, j);
      }
      assert p < q || q < p;
    }
  }

  lemma TwiceAt(b: seq<Leaf>, i: nat, j: nat)
    requires i < j < |b|
    ensures b[i] == b[j] ==> multiset(b)[b[i]] >= 2
  {
    assert b == b[..j] + [b[j]] + b[j + 1..];
    assert b[..j][i] == b[i];
  }

  lemma OnceAt(a: seq<Leaf>, p: nat)
    requires DistinctPaths(a) && p < |a|
    ensures multiset(a)[a[p]] == 1
  {
    assert a == a[..p] + [a[p]] + a[p + 1..];
    assert a[p] !in a[..p] && a[p] !in a[p + 1..];
  }

  // Where a folder is reached enters its hash.

  function Moved(prefix: string, leaves: seq<Leaf>): (r: seq<Leaf>)
    ensures |r| == |leaves|
    ensures forall i :: 0 <= i < |r| ==> r[i] == Leaf(prefix + leaves[i].path, leaves[i].node)
  {
    if leaves == [] then []
    else [Leaf(prefix + leaves[0].path, leaves[0].node)] + Moved(prefix, leaves[1..])
  }

  lemma MovedAppend(prefix: string, a: seq<Leaf>, b: seq<Leaf>)
    ensures Moved(prefix, a + b) == Moved(prefix, a) + Moved(prefix, b)
  {
  }

  lemma {:induction false} WalkMoves(prefix: string, path: string, node: Node)
    ensures Walk(prefix + path, node) == Moved(prefix, Walk(path, node))
    decreases node, 1
  {
    if node.Folder? {
      EntriesMove(prefix, path, node.entries);
    }
  }

  lemma {:induction false} EntriesMove(prefix: string, path: string, entries: seq<Entry>)
    ensures WalkEntries(prefix + path, entries) == Moved(prefix, WalkEntries(path, entries))
    decreases entries, 0
  {
    if entries != [] {
      var e := entries[0];
      assert prefix + path + "/" + e.name == prefix + (path + "/" + e.name);
      WalkMoves(prefix, path + "/" + e.name, e.node);
      EntriesMove(prefix, path, entries[1..]);
      MovedAppend(prefix, Walk(path + "/" + e.name, e.node), WalkEntries(path, entries[1..]));
    }
  }

  lemma {:induction false} BeforeMoves(prefix: string, a: string, b: string)
    ensures Before(prefix + a, prefix + b) == Before(a, b)
  {
    if prefix == "" {
      assert prefix + a == a && prefix + b == b;
    } else {
      assert (prefix + a)[1..] == prefix[1..] + a && (prefix + b)[1..] == prefix[1..] + b;
      BeforeMoves(prefix[1..], a, b);
    }
  }

  lemma {:induction false} InsertedMoves(prefix: string, leaf: Leaf, sorted: seq<Leaf>)
    ensures Inserted(Leaf(prefix + leaf.path, leaf.node), Moved(prefix, sorted)) == Moved(prefix, Inserted(leaf, sorted))
  {
    hide Before;
    if sorted != [] {
      BeforeMoves(prefix, leaf.path, sorted[0].path);
      InsertedMoves(prefix, leaf, sorted[1..]);
      assert Moved(prefix, sorted)[1..] == Moved(prefix, sorted[1..]);
    }
  }

  lemma {:induction false} SortMoves(prefix: string, leaves: seq<Leaf>)
    ensures SortByPath(Moved(prefix, leaves)) == Moved(prefix, SortByPath(leaves))
  {
    if leaves != [] {
      SortMoves(prefix, leaves[1..]);
      assert Moved(prefix, leaves)[1..] == Moved(prefix, leaves[1..]);
      InsertedMoves(prefix, leaves[0], SortByPath(leaves[1..]));
    }
  }

  /** Two outcomes fail alike, or the first is at most as long as the second. */
  predicate NotLonger(x: Result, y: Result)
  {
    if x.Hash? then y.Hash? && |x.value| <= |y.value| else y == x
  }

  predicate StartsWith(x: Result, prefix: string)
  {
    x.Hash? ==> |prefix| <= |x.value| && x.value[..|prefix|] == prefix
  }

  lemma FedMoves(a: string, b: string, m: string, x: Result, y: Result)
    requires |a| <= |b| && NotLonger(x, y)
    ensures NotLonger(Fed(a + m, x), Fed(b + m, y))
    ensures |a| < |b| && x.Hash? ==> |Fed(a + m, x).value| < |Fed(b + m, y).value|
    ensures StartsWith(Fed(a + m, x), a) && StartsWith(Fed(b + m, y), b)
  {
    if x.Hash? {
      assert a + m + x.value == a + (m + x.value) && (a + (m + x.value))[..|a|] == a;
      assert b + m + y.value == b + (m + y.value) && (b + (m + y.value))[..|b|] == b;
    }
  }

  /** The stream of moved leaves begins with the prefix and grows with it. */
  lemma {:induction false} StreamMoves(fuel: nat, a: string, b: string, leaves: seq<Leaf>, blake3: string -> string)
    requires |a| <= |b| && forall l <- leaves :: !l.node.Folder?
    ensures var x, y := StreamIn(fuel, Moved(a, leaves), blake3), StreamIn(fuel, Moved(b, leaves), blake3);
            && NotLonger(x, y)
            && (leaves != [] ==> StartsWith(x, a) && StartsWith(y, b))
            && (leaves != [] && x.Hash? && |a| < |b| ==> |x.value| < |y.value|)
    decreases |leaves|
  {
    hide Moved, HashFileIn, Fed, StartsWith;
    if leaves == [] {
      NothingMoves(a);
      NothingMoves(b);
    } else {
      var l := leaves[0];
      assert l in leaves;
      StreamMoves(fuel, a, b, leaves[1..], blake3);
      StreamOfMoved(fuel, a, leaves, blake3);
      StreamOfMoved(fuel, b, leaves, blake3);
      var h := HashFileIn(fuel, l.path, l.node, blake3);
      var x, y := StreamIn(fuel, Moved(a, leaves[1..]), blake3), StreamIn(fuel, Moved(b, leaves[1..]), blake3);
      if h.Hash? {
        FedMoves(a, b, l.path + h.value, x, y);
        FedFails(a + (l.path + h.value), x);
      } else {
        FailsAnyway(h, a, b);
      }
    }
  }

  lemma FailsAnyway(h: Result, a: string, b: string)
    requires !h.Hash?
    ensures NotLonger(h, h) && StartsWith(h, a) && StartsWith(h, b)
  {
  }

  lemma FedFails(written: string, r: Result)
    ensures Fed(written, r).Hash? == r.Hash?
  {
  }

  lemma NothingMoves(prefix: string)
    ensures Moved(prefix, []) == []
  {
  }

  /** Apart from a folder, what is at a path hashes the same at any other. */
  lemma SameElsewhere(fuel: nat, a: string, b: string, node: Node, blake3: string -> string)
    requires !node.Folder?
    ensures HashFileIn(fuel, a, node, blake3) == HashFileIn(fuel, b, node, blake3)
  {
    hide HashDirIn;
    if node.LinkToFolder? {
      LinkDiverges(fuel, a, blake3);
      LinkDiverges(fuel, b, blake3);
    }
  }

  lemma StreamOfMoved(fuel: nat, prefix: string, leaves: seq<Leaf>, blake3: string -> string)
    requires leaves != [] && forall l <- leaves :: !l.node.Folder?
    ensures var l := leaves[0];
            var h := HashFileIn(fuel, l.path, l.node, blake3);
            StreamIn(fuel, Moved(prefix, leaves), blake3)
            == if h.Hash? then Fed(prefix + (l.path + h.value), StreamIn(fuel, Moved(prefix, leaves[1..]), blake3)) else h
  {
    hide Fed, HashFileIn;
    var l := leaves[0];
    assert l in leaves;
    assert Moved(prefix, leaves)[1..] == Moved(prefix, leaves[1..]);
    SameElsewhere(fuel, prefix + l.path, l.path, l.node, blake3);
    var h := HashFileIn(fuel, l.path, l.node, blake3);
    if h.Hash? {
      assert prefix + l.path + h.value == prefix + (l.path + h.value);
    }
  }

  /**
   The path that a folder is reached by is part of what is hashed: two places give the same stream
   exactly when they are the same, unless there is nothing in the folder or it cannot be hashed.
   */
  lemma PathEntersTheHashIff(fuel: nat, a: string, b: string, node: Node, blake3: string -> string)
    requires node.Folder?
    ensures var x := StreamIn(fuel, SortByPath(Walk(a, node)), blake3);
            var y := StreamIn(fuel, SortByPath(Walk(b, node)), blake3);
            x == y <==> a == b || Walk("", node) == [] || !x.Hash?
  {
    hide StreamIn, Walk, SortByPath;
    var leaves := SortByPath(Walk("", node));
    forall path: string ensures SortByPath(Walk(path, node)) == Moved(path, leaves) {
      assert path + "" == path;
      WalkMoves(path, "", node);
      SortMoves(path, Walk("", node));
    }
    assert leaves == [] <==> Walk("", node) == [] by {
      assert |multiset(leaves)| == |leaves| && |multiset(Walk("", node))| == |Walk("", node)|;
    }
    forall l <- leaves ensures !l.node.Folder? {
      assert l in multiset(leaves);
      assert l in Walk("", node);
    }
    if |a| <= |b| {
      StreamMoves(fuel, a, b, leaves, blake3);
    } else {
      StreamMoves(fuel, b, a, leaves, blake3);
    }
    if leaves == [] {
      assert Moved(a, leaves) == Moved(b, leaves);
    }
  }

  // Trees whose paths are distinct, and any order of their entries.

  /** Within every folder names differ and contain no slash. */
  predicate WellNamed(node: Node)
    decreases node, 1
  {
    node.Folder? ==> WellNamedEntries(node.entries)
  }

  predicate WellNamedEntries(entries: seq<Entry>)
    decreases entries, 0
  {
    entries == []
    || (&& '/' !in entries[0].name && WellNamed(entries[0].node)
        && (forall e <- entries[1..] :: e.name != entries[0].name)
        && WellNamedEntries(entries[1..]))
  }

  predicate Under(path: string, base: string)
  {
    path == base || (|path| > |base| && path[..|base|] == base && path[|base|] == '/')
  }

  lemma {:induction false} WalkStaysUnder(path: string, node: Node)
    ensures forall l <- Walk(path, node) :: Under(l.path, path)
    decreases node, 1
  {
    if node.Folder? {
      EntriesStayUnder(path, node.entries);
    }
  }

  lemma {:induction false} EntriesStayUnder(path: string, entries: seq<Entry>)
    ensures forall l <- WalkEntries(path, entries) :: exists e <- entries :: Under(l.path, path + "/" + e.name)
    ensures forall l <- WalkEntries(path, entries) :: Under(l.path, path)
    decreases entries, 0
  {
    if entries != [] {
      var e := entries[0];
      WalkStaysUnder(path + "/" + e.name, e.node);
      EntriesStayUnder(path, entries[1..]);
      forall l <- WalkEntries(path, entries)
        ensures exists e <- entries :: Under(l.path, path + "/" + e.name)
        ensures Under(l.path, path)
      {
        if l in Walk(path + "/" + e.name, e.node) {
          assert e in entries;
          assert l.path[..|path + "/" + e.name|] == path + "/" + e.name;
        } else {
          assert l in WalkEntries(path, entries[1..]);
          var f :| f in entries[1..] && Under(l.path, path + "/" + f.name);
          assert f in entries;
        }
      }
    }
  }

  /** A path is under one entry only: the one named by what follows the folder's own path. */
  lemma NameOfPath(path: string, base: string, name: string)
    requires Under(path, base + "/" + name) && '/' !in name
    ensures |path| > |base| && Partition(path[|base| + 1..], '/').0 == name
  {
    var full := base + "/" + name;
    var rest := path[|base| + 1..];
    if path == full {
      assert rest == name;
      PartitionOfWhole(name, '/');
    } else {
      assert path == full + ['/'] + path[|full| + 1..];
      assert rest == name + ['/'] + path[|full| + 1..];
      PartitionOfJoined(name, '/', path[|full| + 1..]);
    }
  }

  lemma {:induction false} WalkIsDistinct(path: string, node: Node)
    requires WellNamed(node)
    ensures DistinctPaths(Walk(path, node))
    decreases node, 1
  {
    if node.Folder? {
      EntriesAreDistinct(path, node.entries);
    }
  }

  lemma {:induction false} EntriesAreDistinct(path: string, entries: seq<Entry>)
    requires WellNamedEntries(entries)
    ensures DistinctPaths(WalkEntries(path, entries))
    decreases entries, 0
  {
    if entries != [] {
      var e := entries[0];
      var first, rest := Walk(path + "/" + e.name, e.node), WalkEntries(path, entries[1..]);
      WalkIsDistinct(path + "/" + e.name, e.node);
      EntriesAreDistinct(path, entries[1..]);
      WalkStaysUnder(path + "/" + e.name, e.node);
      EntriesStayUnder(path, entries[1..]);
      NamesHaveNoSlash(entries[1..]);
      forall a <- first, b <- rest ensures a.path != b.path {
        var f :| f in entries[1..] && Under(b.path, path + "/" + f.name);
        NameOfPath(a.path, path, e.name);
        NameOfPath(b.path, path, f.name);
      }
      DistinctAppend(first, rest);
    }
  }

  lemma {:induction false} NamesHaveNoSlash(entries: seq<Entry>)
    requires WellNamedEntries(entries)
    ensures forall e <- entries :: '/' !in e.name
  {
    if entries != [] {
      NamesHaveNoSlash(entries[1..]);
      assert entries == [entries[0]] + entries[1..];
    }
  }

  lemma DistinctAppend(a: seq<Leaf>, b: seq<Leaf>)
    requires DistinctPaths(a) && DistinctPaths(b) && forall x <- a, y <- b :: x.path != y.path
    ensures DistinctPaths(a + b)
  {
    var all := a + b;
    forall i, j | 0 <= i < j < |all| ensures all[i].path != all[j].path {
      if i < |a| <= j {
        assert all[i] in a && all[j] in b;
      }
    }
  }

  lemma {:induction false} WalkAppend(path: string, a: seq<Entry>, b: seq<Entry>)
    ensures WalkEntries(path, a + b) == WalkEntries(path, a) + WalkEntries(path, b)
    decreases |a|
  {
    if a == [] {
      assert a + b == b;
    } else {
      assert (a + b)[1..] == a[1..] + b;
      WalkAppend(path, a[1..], b);
    }
  }

  lemma OneLess(head: Entry, rest: seq<Entry>, left: seq<Entry>, right: seq<Entry>)
    requires multiset([head] + rest) == multiset(left + ([head] + right))
    ensures multiset(rest) == multiset(left + right)
  {
    var m := multiset(rest);
    var n := multiset(left + right);
    assert multiset([head] + rest) == multiset{head} + m;
    assert multiset(left + ([head] + right)) == multiset{head} + n;
    forall e: Entry ensures m[e] == n[e] {
      assert (multiset{head} + m)[e] == (multiset{head} + n)[e];
    }
  }

  lemma {:induction false} EntryOrderKeepsLeaves(path: string, a: seq<Entry>, b: seq<Entry>)
    requires multiset(a) == multiset(b)
    ensures multiset(WalkEntries(path, a)) == multiset(WalkEntries(path, b))
    decreases |a|
  {
    assert |multiset(a)| == |a| && |multiset(b)| == |b|;
    if a != [] {
      var head, rest := a[0], a[1..];
      assert a == [head] + rest && head in multiset(b);
      var i :| 0 <= i < |b| && b[i] == head;
      var left, right := b[..i], b[i + 1..];
      assert b == left + ([head] + right);
      OneLess(head, rest, left, right);
      EntryOrderKeepsLeaves(path, rest, left + right);
      WalkAppend(path, left, right);
      WalkAppend(path, left, [head] + right);
      WalkAppend(path, [head], right);
      WalkAppend(path, [head], rest);
    }
  }

  /** A folder's hash is the same in whatever order the file system lists its entries. */
  lemma EntryOrderDoesNotMatter(fuel: nat, path: string, a: seq<Entry>, b: seq<Entry>, blake3: string -> string)
    requires multiset(a) == multiset(b) && WellNamed(Folder(a))
    ensures HashDirIn(fuel, path, Folder(a), blake3) == HashDirIn(fuel, path, Folder(b), blake3)
  {
    WalkIsDistinct(path, Folder(a));
    EntryOrderKeepsLeaves(path, a, b);
    WalkOrderDoesNotMatter(fuel, Walk(path, Folder(a)), Walk(path, Folder(b)), blake3);
  }

  // The same computation with a hasher that is fed step by step.

  /** blake3.Hasher: what has been written so far. */
  class Hasher {
    var written: string

    constructor ()
      ensures written == ""
    {
      written := "";
    }

    method Write(s: string)
      modifies this
      ensures written == old(written) + s
    {
      written := written + s;
    }

    method Sum(blake3: string -> string) returns (digest: string)
      ensures digest == blake3(written)
    {
      digest := blake3(written);
    }
  }

  /** Where the recursion ends, no bound on it matters. */
  lemma {:induction false} StreamNeedsNoFuel(fuel: nat, leaves: seq<Leaf>, blake3: string -> string)
    requires Terminates(leaves) && forall l <- leaves :: !l.node.Folder?
    ensures StreamIn(fuel, leaves, blake3) == StreamIn(0, leaves, blake3)
    decreases |leaves|
  {
    if leaves != [] {
      assert leaves[0] in leaves;
      if !leaves[0].node.Broken? {
        StreamNeedsNoFuel(fuel, leaves[1..], blake3);
      }
    }
  }

  lemma HashDirNeedsNoFuel(fuel: nat, path: string, node: Node, blake3: string -> string)
    requires Terminates(SortByPath(Walk(path, node)))
    ensures HashDirIn(fuel, path, node, blake3) == HashDirIn(0, path, node, blake3)
    ensures !HashDirIn(fuel, path, node, blake3).Diverged?
  {
    SortedLeaves(path, node);
    StreamNeedsNoFuel(fuel, SortByPath(Walk(path, node)), blake3);
    HashDirEndsIff(fuel, path, node, blake3);
  }

  lemma SortedLeaves(path: string, node: Node)
    ensures forall l <- SortByPath(Walk(path, node)) :: !l.node.Folder?
  {
    forall l <- SortByPath(Walk(path, node)) ensures !l.node.Folder? {
      assert l in multiset(SortByPath(Walk(path, node)));
      assert l in Walk(path, node);
    }
  }

  /** HashFile: a link to a directory is excluded because hashing it does not end. */
  method HashFile(path: string, node: Node, blake3: string -> string) returns (r: Result)
    requires !node.LinkToFolder? && (node.Folder? ==> Terminates(SortByPath(Walk(path, node))))
    ensures r == HashFileIn(1, path, node, blake3)
    ensures node.File? || node.LinkToFile? ==> r == Hash(blake3(Digits(node.mode) + node.content))
    ensures node.Broken? ==> r == Failed
    decreases if node.Folder? then 2 else 0
  {
    if node.Folder? {
      r := HashDir(path, node, blake3);
      return;
    }
    if node.Broken? {
      return Failed;
    }
    var hasher := new Hasher();
    hasher.Write(Digits(node.mode));
    hasher.Write(node.content);
    assert hasher.written == Digits(node.mode) + node.content;
    var digest := hasher.Sum(blake3);
    r := Hash(digest);
  }

  /** HashDir, on exactly the folders for which it ends. */
  method HashDir(path: string, node: Node, blake3: string -> string) returns (r: Result)
    requires node.Folder? && Terminates(SortByPath(Walk(path, node)))
    ensures r == HashDirIn(0, path, node, blake3)
    decreases 1
  {
    hide SortByPath, Walk, HashFileIn, Fed, FileHash;
    var hasher := new Hasher();
    var filePaths := SortByPath(Walk(path, node));
    SortedLeaves(path, node);
    assert filePaths[0..] == filePaths;
    NothingFed(StreamIn(0, filePaths, blake3));
    for k := 0 to |filePaths|
      invariant Terminates(filePaths[k..])
      invariant StreamIn(0, filePaths, blake3) == Fed(hasher.written, StreamIn(0, filePaths[k..], blake3))
    {
      var leaf := filePaths[k];
      assert leaf in filePaths;
      assert filePaths[k..][0] == leaf && filePaths[k..][1..] == filePaths[k + 1..];
      var hash := HashFile(leaf.path, leaf.node, blake3);
      LeafNeedsNoFuel(leaf, blake3);
      if !hash.Hash? {
        NothingMore(hasher.written, hash);
        return hash;
      }
      FedTwice(hasher.written, leaf.path + hash.value, StreamIn(0, filePaths[k + 1..], blake3));
      ghost var before := hasher.written;
      hasher.Write(leaf.path);
      hasher.Write(hash.value);
      assert hasher.written == before + (leaf.path + hash.value);
    }
    assert filePaths[|filePaths|..] == [];
    AllFed(hasher.written);
    var digest := hasher.Sum(blake3);
    r := Hash(digest);
  }

  lemma LeafNeedsNoFuel(leaf: Leaf, blake3: string -> string)
    requires !leaf.node.Folder? && !leaf.node.LinkToFolder?
    ensures HashFileIn(1, leaf.path, leaf.node, blake3) == HashFileIn(0, leaf.path, leaf.node, blake3)
    ensures !HashFileIn(0, leaf.path, leaf.node, blake3).Hash? ==> leaf.node.Broken?
    ensures leaf.node.Broken? ==> HashFileIn(0, leaf.path, leaf.node, blake3) == Failed
  {
  }

  lemma FedTwice(a: string, b: string, r: Result)
    ensures Fed(a + b, r) == Fed(a, Fed(b, r))
  {
    if r.Hash? {
      assert a + b + r.value == a + (b + r.value);
    }
  }

  lemma NothingFed(r: Result)
    ensures Fed("", r) == r
  {
    if r.Hash? {
      assert "" + r.value == r.value;
    }
  }

  lemma NothingMore(written: string, r: Result)
    requires !r.Hash?
    ensures Fed(written, r) == r
  {
  }

  lemma AllFed(written: string)
    ensures Fed(written, Hash("")) == Hash(written)
  {
    assert written + "" == written;
  }
}
