/** What the hashes of files and folders tell apart, and what exactly goes into them. */
module HashLaws {
  import opened Basics
  import opened DirectoryHash

  ghost predicate Injective(blake3: string -> string)
  {
    forall x, y :: blake3(x) == blake3(y) ==> x == y
  }

  // One file.

  /** The hash of a file, or of a link to one, at any path. */
  function HashAt(node: Node, blake3: string -> string): Result
  {
    HashFileIn(0, "", node, blake3)
  }

  /** With the mode fixed a file's hash tells its content, and with the content fixed its mode. */
  lemma FileHashTells(a: nat, x: string, b: nat, y: string, blake3: string -> string)
    requires Injective(blake3)
    ensures HashAt(File(a, x), blake3) == HashAt(File(a, y), blake3) <==> x == y
    ensures HashAt(File(a, x), blake3) == HashAt(File(b, x), blake3) <==> a == b
    ensures HashAt(LinkToFile(a, x), blake3) == HashAt(File(a, x), blake3)
  {
    if Digits(a) + x == Digits(a) + y {
      SamePrefix(Digits(a), x, y);
    }
    if Digits(a) + x == Digits(b) + x {
      assert |Digits(a)| == |Digits(b)|;
      assert Digits(a) == (Digits(a) + x)[..|Digits(a)|];
      assert Digits(b) == (Digits(b) + x)[..|Digits(b)|];
      DigitsInjective(a, b);
    }
  }

  /** Nothing separates mode and content, so together they can be confused. */
  lemma ModeRunsIntoContent(blake3: string -> string)
    ensures HashAt(File(42, "0a"), blake3) == HashAt(File(420, "a"), blake3)
  {
    assert Digits(4) == "4" && Digits(42) == Digits(4) + "2" && Digits(420) == Digits(42) + "0";
    assert Digits(42) + "0a" == Digits(420) + "a";
  }

  /** The number that a string of digits stands for. */
  function Value(digits: string): nat
    requires forall c <- digits :: '0' <= c <= '9'
  {
    if digits == "" then 0
    else
      var n := |digits| - 1;
      assert digits[n] in digits;
      assert forall c <- digits[..n] :: c in digits;
      10 * Value(digits[..n]) + (digits[n] as int - '0' as int)
  }

  /** The mode is written in decimal, without leading zeros. */
  lemma {:induction false} DigitsAreDecimal(n: nat)
    ensures (forall c <- Digits(n) :: '0' <= c <= '9') && Value(Digits(n)) == n
    ensures n > 0 ==> Digits(n)[0] != '0'
  {
    var d := Digits(n);
    OneDigit(n % 10);
    if n >= 10 {
      DigitsAreDecimal(n / 10);
      assert d[..|d| - 1] == Digits(n / 10);
    } else {
      assert d[..|d| - 1] == "";
    }
  }

  lemma OneDigit(n: nat)
    requires n < 10
    ensures '0' <= DigitChar(n) <= '9' && DigitChar(n) as int - '0' as int == n
  {
  }

  // The order of paths.

  /** Byte order: one path begins the other, or they differ first where the smaller one has the smaller character. */
  lemma {:induction false} BeforeIff(a: string, b: string)
    ensures Before(a, b) <==> a <= b || exists k :: 0 <= k < |a| && k < |b| && a[..k] == b[..k] && a[k] < b[k]
    decreases |a|
  {
    if a != "" && b != "" {
      if a[0] == b[0] {
        BeforeIff(a[1..], b[1..]);
        assert a == [a[0]] + a[1..] && b == [b[0]] + b[1..];
        if k :| 0 <= k < |a[1..]| && k < |b[1..]| && a[1..][..k] == b[1..][..k] && a[1..][k] < b[1..][k] {
          assert a[..k + 1] == [a[0]] + a[1..][..k] && b[..k + 1] == [b[0]] + b[1..][..k];
          assert a[k + 1] < b[k + 1];
        }
        if k :| 0 <= k < |a| && k < |b| && a[..k] == b[..k] && a[k] < b[k] {
          assert a[1..][..k - 1] == a[..k][1..] && b[1..][..k - 1] == b[..k][1..];
          assert a[1..][k - 1] < b[1..][k - 1];
        }
      } else {
        FirstDiffers(a, b);
      }
    }
  }

  lemma FirstDiffers(a: string, b: string)
    requires a != "" && b != "" && a[0] != b[0]
    ensures !(a <= b)
    ensures a[0] < b[0] <==> exists k :: 0 <= k < |a| && k < |b| && a[..k] == b[..k] && a[k] < b[k]
  {
    if a[0] < b[0] {
      assert a[..0] == b[..0];
    }
    forall k | 0 < k < |a| && k < |b| ensures a[..k] != b[..k] {
      assert a[..k][0] == a[0] && b[..k][0] == b[0];
    }
  }

  // What the walk collects.

  /** What is found at a path of names inside a node. */
  ghost predicate At(node: Node, names: seq<string>, found: Node)
    decreases |names|
  {
    if names == [] then found == node
    else node.Folder? && exists e <- node.entries :: e.name == names[0] && At(e.node, names[1..], found)
  }

  function Slashed(names: seq<string>): string
  {
    if names == [] then "" else "/" + names[0] + Slashed(names[1..])
  }

  /** The walk collects exactly what is not a folder, wherever it is, under its path. */
  lemma {:induction false} WalkCollects(path: string, node: Node, l: Leaf)
    ensures l in Walk(path, node) <==>
            !l.node.Folder? && exists names :: At(node, names, l.node) && l.path == path + Slashed(names)
    decreases node, 1
  {
    hide At, Slashed;
    if node.Folder? {
      EntriesCollect(path, node.entries, l);
      if l in Walk(path, node) {
        var e, names :| e in node.entries && At(e.node, names, l.node) && l.path == path + "/" + e.name + Slashed(names);
        FoundDeeper(path, node, e, names, l.node);
      } else if !l.node.Folder? {
        forall names ensures !(At(node, names, l.node) && l.path == path + Slashed(names)) {
          NotElsewhere(path, node, names, l);
        }
      }
    } else {
      HereIsIt(path, node, l);
    }
  }

  lemma NotElsewhere(path: string, node: Node, names: seq<string>, l: Leaf)
    requires node.Folder? && !l.node.Folder?
    requires forall e: Entry, rest: seq<string> ::
               e in node.entries && At(e.node, rest, l.node) ==> l.path != path + "/" + e.name + Slashed(rest)
    ensures !(At(node, names, l.node) && l.path == path + Slashed(names))
  {
    if At(node, names, l.node) {
      var e :| e in node.entries && e.name == names[0] && At(e.node, names[1..], l.node);
      assert path + "/" + e.name + Slashed(names[1..]) == path + Slashed(names);
    }
  }

  lemma HereIsIt(path: string, node: Node, l: Leaf)
    requires !node.Folder?
    ensures (exists names :: At(node, names, l.node) && l.path == path + Slashed(names)) <==> l == Leaf(path, node)
  {
    assert path + Slashed([]) == path;
    if l == Leaf(path, node) {
      assert At(node, [], l.node);
    }
  }

  lemma FoundDeeper(path: string, node: Node, e: Entry, names: seq<string>, found: Node)
    requires node.Folder? && e in node.entries && At(e.node, names, found)
    ensures At(node, [e.name] + names, found) && path + Slashed([e.name] + names) == path + "/" + e.name + Slashed(names)
  {
    assert ([e.name] + names)[1..] == names;
    assert path + ("/" + e.name + Slashed(names)) == path + "/" + e.name + Slashed(names);
  }

  lemma {:induction false} EntriesCollect(path: string, entries: seq<Entry>, l: Leaf)
    ensures l in WalkEntries(path, entries) <==>
            !l.node.Folder? && exists e, names :: e in entries && At(e.node, names, l.node)
                                 && l.path == path + "/" + e.name + Slashed(names)
    decreases entries, 0
  {
    hide At;
    if entries != [] {
      WalkCollects(path + "/" + entries[0].name, entries[0].node, l);
      EntriesCollect(path, entries[1..], l);
      assert entries == [entries[0]] + entries[1..];
    }
  }

  // One changed file.

  /** The same leaves but for one, which keeps its path. */
  predicate OneChanged(a: seq<Leaf>, b: seq<Leaf>, k: nat, x: Leaf, y: Leaf)
  {
    k < |a| && a[k] == x && b == a[k := y] && x.path == y.path
  }

  lemma Prepended(h: Leaf, a: seq<Leaf>, b: seq<Leaf>, k: nat, x: Leaf, y: Leaf)
    requires OneChanged(a, b, k, x, y)
    ensures OneChanged([h] + a, [h] + b, k + 1, x, y)
  {
  }

  lemma Behead(a: seq<Leaf>, b: seq<Leaf>, k: nat, x: Leaf, y: Leaf)
    requires OneChanged(a, b, k, x, y)
    ensures a[0].path == b[0].path
    ensures k > 0 ==> a[0] == b[0] && OneChanged(a[1..], b[1..], k - 1, x, y)
    ensures k == 0 ==> a[0] == x && b[0] == y && a[1..] == b[1..]
  {
    assert k > 0 ==> b[1..] == a[1..][k - 1 := y];
  }

  lemma InsertIs(leaf: Leaf, a: seq<Leaf>)
    requires a != []
    ensures Inserted(leaf, a) == if Before(leaf.path, a[0].path) then [leaf] + a else [a[0]] + Inserted(leaf, a[1..])
  {
  }

  lemma {:induction false} InsertChanged(leaf: Leaf, a: seq<Leaf>, b: seq<Leaf>, k: nat, x: Leaf, y: Leaf) returns (i: nat)
    requires OneChanged(a, b, k, x, y)
    ensures OneChanged(Inserted(leaf, a), Inserted(leaf, b), i, x, y)
    decreases |a|
  {
    hide Before, Inserted;
    Behead(a, b, k, x, y);
    InsertIs(leaf, a);
    InsertIs(leaf, b);
    if Before(leaf.path, a[0].path) {
      i := k + 1;
      Prepended(leaf, a, b, k, x, y);
    } else if k == 0 {
      i := 0;
      Replace0(x, y, Inserted(leaf, a[1..]));
    } else {
      var j := InsertChanged(leaf, a[1..], b[1..], k - 1, x, y);
      i := j + 1;
      Prepended(a[0], Inserted(leaf, a[1..]), Inserted(leaf, b[1..]), j, x, y);
    }
  }

  lemma Replace0(x: Leaf, y: Leaf, rest: seq<Leaf>)
    requires x.path == y.path
    ensures OneChanged([x] + rest, [y] + rest, 0, x, y)
  {
  }

  lemma {:induction false} InsertOther(x: Leaf, y: Leaf, sorted: seq<Leaf>) returns (i: nat)
    requires x.path == y.path
    ensures OneChanged(Inserted(x, sorted), Inserted(y, sorted), i, x, y)
  {
    hide Before;
    if sorted == [] || Before(x.path, sorted[0].path) {
      i := 0;
      Replace0(x, y, sorted);
      assert sorted == [] ==> [x] + sorted == [x] && [y] + sorted == [y];
    } else {
      hide Inserted;
      InsertIs(x, sorted);
      InsertIs(y, sorted);
      var j := InsertOther(x, y, sorted[1..]);
      i := j + 1;
      Prepended(sorted[0], Inserted(x, sorted[1..]), Inserted(y, sorted[1..]), j, x, y);
    }
  }

  /** Sorting by path puts the changed leaf where the old one was. */
  lemma {:induction false} SortChanged(a: seq<Leaf>, b: seq<Leaf>, k: nat, x: Leaf, y: Leaf) returns (i: nat)
    requires OneChanged(a, b, k, x, y)
    ensures OneChanged(SortByPath(a), SortByPath(b), i, x, y)
    decreases |a|
  {
    hide Inserted;
    if k == 0 {
      assert a[1..] == b[1..];
      i := InsertOther(x, y, SortByPath(a[1..]));
    } else {
      assert b[1..] == a[1..][k - 1 := y];
      var j := SortChanged(a[1..], b[1..], k - 1, x, y);
      i := InsertChanged(a[0], SortByPath(a[1..]), SortByPath(b[1..]), j, x, y);
    }
  }

  /** Every leaf can be hashed: it is a file or a link to one. */
  predicate AllFiles(leaves: seq<Leaf>)
  {
    forall l <- leaves :: l.node.File? || l.node.LinkToFile?
  }

  /** With digests of one length, the difference in one leaf shows in the stream exactly when its hash changed. */
  lemma {:induction false} StreamTells(
      a: seq<Leaf>, b: seq<Leaf>, k: nat, x: Leaf, y: Leaf, blake3: string -> string, n: nat)
    requires OneChanged(a, b, k, x, y) && AllFiles(a) && AllFiles(b)
    requires forall s :: |blake3(s)| == n
    ensures StreamIn(0, a, blake3).Hash? && StreamIn(0, b, blake3).Hash?
    ensures StreamIn(0, a, blake3) == StreamIn(0, b, blake3) <==> HashAt(x.node, blake3) == HashAt(y.node, blake3)
    decreases |a|
  {
    hide HashFileIn;
    AllHash(a, blake3);
    AllHash(b, blake3);
    assert a[0] in a && b[0] in b;
    LeafHash(a[0], blake3, n);
    LeafHash(b[0], blake3, n);
    AllHash(a[1..], blake3);
    AllHash(b[1..], blake3);
    var ha, hb := HashAt(a[0].node, blake3).value, HashAt(b[0].node, blake3).value;
    var ra, rb := StreamIn(0, a[1..], blake3).value, StreamIn(0, b[1..], blake3).value;
    SameParts(a[0].path, ha, ra, hb, rb);
    if k > 0 {
      assert b[1..] == a[1..][k - 1 := y];
      StreamTells(a[1..], b[1..], k - 1, x, y, blake3, n);
    } else {
      assert a[1..] == b[1..];
    }
  }

  lemma SameParts(path: string, ha: string, ra: string, hb: string, rb: string)
    requires |ha| == |hb|
    ensures path + ha + ra == path + hb + rb <==> ha == hb && ra == rb
  {
    var a, b := path + ha + ra, path + hb + rb;
    assert a[|path|..|path| + |ha|] == ha && b[|path|..|path| + |hb|] == hb;
    assert a[|path| + |ha|..] == ra && b[|path| + |hb|..] == rb;
  }

  lemma LeafHash(l: Leaf, blake3: string -> string, n: nat)
    requires (l.node.File? || l.node.LinkToFile?) && forall s :: |blake3(s)| == n
    ensures HashFileIn(0, l.path, l.node, blake3) == HashAt(l.node, blake3)
    ensures HashAt(l.node, blake3).Hash? && |HashAt(l.node, blake3).value| == n
  {
  }

  lemma {:induction false} AllHash(a: seq<Leaf>, blake3: string -> string)
    requires AllFiles(a)
    ensures StreamIn(0, a, blake3).Hash?
  {
    if a != [] {
      assert a[0] in a;
      AllHash(a[1..], blake3);
    }
  }

  /** There is something at that place: at each level the position of an entry. */
  predicate Reaches(node: Node, place: seq<nat>)
    decreases |place|
  {
    place == []
    || (node.Folder? && place[0] < |node.entries| && Reaches(node.entries[place[0]].node, place[1..]))
  }

  /** The tree with something else there. */
  function Replaced(node: Node, place: seq<nat>, other: Node): (r: Node)
    requires Reaches(node, place)
    ensures place != [] ==> r.Folder?
    decreases |place|
  {
    if place == [] then other
    else
      var e := node.entries[place[0]];
      Folder(node.entries[place[0] := Entry(e.name, Replaced(e.node, place[1..], other))])
  }

  function PathOf(path: string, node: Node, place: seq<nat>): string
    requires Reaches(node, place)
    decreases |place|
  {
    if place == [] then path
    else PathOf(path + "/" + node.entries[place[0]].name, node.entries[place[0]].node, place[1..])
  }

  lemma Around(before: seq<Leaf>, a: seq<Leaf>, b: seq<Leaf>, behind: seq<Leaf>, i: nat, x: Leaf, y: Leaf)
    requires OneChanged(a, b, i, x, y)
    ensures OneChanged(before + a + behind, before + b + behind, |before| + i, x, y)
  {
  }

  lemma WalkMore(path: string, e: Entry, entries: seq<Entry>)
    ensures WalkEntries(path, [e] + entries) == Walk(path + "/" + e.name, e.node) + WalkEntries(path, entries)
  {
    hide Walk;
    assert ([e] + entries)[1..] == entries;
  }

  lemma {:induction false} WalkJoined(path: string, a: seq<Entry>, b: seq<Entry>)
    ensures WalkEntries(path, a + b) == WalkEntries(path, a) + WalkEntries(path, b)
    decreases |a|
  {
    hide WalkEntries, Walk;
    if a == [] {
      NothingWalked(path);
      assert a + b == b;
    } else {
      WalkJoined(path, a[1..], b);
      WalkMore(path, a[0], a[1..]);
      WalkMore(path, a[0], a[1..] + b);
      assert [a[0]] + a[1..] == a && [a[0]] + (a[1..] + b) == a + b;
    }
  }

  lemma NothingWalked(path: string)
    ensures WalkEntries(path, []) == []
  {
  }

  /** What is walked of the entries before and behind one of them does not depend on it. */
  lemma WalkAround(path: string, entries: seq<Entry>, k: nat, node: Node) returns (before: seq<Leaf>, behind: seq<Leaf>)
    requires k < |entries|
    ensures before == WalkEntries(path, entries[..k]) && behind == WalkEntries(path, entries[k + 1..])
    ensures WalkEntries(path, entries[k := Entry(entries[k].name, node)])
         == before + Walk(path + "/" + entries[k].name, node) + behind
  {
    hide Walk, WalkEntries;
    var e := Entry(entries[k].name, node);
    before, behind := WalkEntries(path, entries[..k]), WalkEntries(path, entries[k + 1..]);
    assert entries[k := e] == entries[..k] + ([e] + entries[k + 1..]);
    WalkJoined(path, entries[..k], [e] + entries[k + 1..]);
    WalkMore(path, e, entries[k + 1..]);
  }

  /** Changing one file changes one leaf of the walk. */
  lemma {:induction false} WalkReplaced(path: string, node: Node, place: seq<nat>, a: Node, b: Node) returns (i: nat)
    requires Reaches(node, place) && !a.Folder? && !b.Folder?
    ensures var p := PathOf(path, node, place);
            OneChanged(Walk(path, Replaced(node, place, a)), Walk(path, Replaced(node, place, b)), i, Leaf(p, a), Leaf(p, b))
    decreases |place|
  {
    hide OneChanged;
    if place == [] {
      i := 0;
      Replace0(Leaf(path, a), Leaf(path, b), []);
      assert [Leaf(path, a)] + [] == [Leaf(path, a)] && [Leaf(path, b)] + [] == [Leaf(path, b)];
    } else {
      var k := place[0];
      var e := node.entries[k];
      var na, nb := Replaced(e.node, place[1..], a), Replaced(e.node, place[1..], b);
      var j := WalkReplaced(path + "/" + e.name, e.node, place[1..], a, b);
      var before, behind := WalkAround(path, node.entries, k, na);
      var _, _ := WalkAround(path, node.entries, k, nb);
      var p := PathOf(path, node, place);
      Around(before, Walk(path + "/" + e.name, na), Walk(path + "/" + e.name, nb), behind, j, Leaf(p, a), Leaf(p, b));
      i := |before| + j;
    }
  }

  /** The digests of these two texts do not collide. */
  predicate Apart(blake3: string -> string, a: string, b: string)
  {
    blake3(a) == blake3(b) ==> a == b
  }

  /** What is written to the hasher of a folder all of whose leaves are files. */
  function Written(path: string, node: Node, blake3: string -> string): string
    requires AllFiles(Walk(path, node))
  {
    SortedFiles(Walk(path, node));
    AllHash(SortByPath(Walk(path, node)), blake3);
    StreamIn(0, SortByPath(Walk(path, node)), blake3).value
  }

  /**
   The content of every file, at whatever depth, enters the hash of the folder: with digests of one
   length that do not collide on the texts in play, replacing one file's content leaves the hash as it
   was exactly when the content is the same.
   */
  lemma ContentEntersTheHash(
      path: string, folder: Node, place: seq<nat>, mode: nat, x: string, y: string, blake3: string -> string, n: nat)
    requires folder.Folder? && place != [] && Reaches(folder, place) && forall s :: |blake3(s)| == n
    requires AllFiles(Walk(path, Replaced(folder, place, File(mode, x))))
    requires AllFiles(Walk(path, Replaced(folder, place, File(mode, y))))
    requires Apart(blake3, Digits(mode) + x, Digits(mode) + y)
    requires Apart(blake3, Written(path, Replaced(folder, place, File(mode, x)), blake3),
                   Written(path, Replaced(folder, place, File(mode, y)), blake3))
    ensures HashDirIn(0, path, Replaced(folder, place, File(mode, x)), blake3)
            == HashDirIn(0, path, Replaced(folder, place, File(mode, y)), blake3)
            <==> x == y
  {
    hide SortByPath, Walk, StreamIn, HashAt, Replaced, Reaches, PathOf;
    var a, b := Walk(path, Replaced(folder, place, File(mode, x))), Walk(path, Replaced(folder, place, File(mode, y)));
    var p := PathOf(path, folder, place);
    var i := WalkReplaced(path, folder, place, File(mode, x), File(mode, y));
    var j := SortChanged(a, b, i, Leaf(p, File(mode, x)), Leaf(p, File(mode, y)));
    SortedFiles(a);
    SortedFiles(b);
    StreamTells(SortByPath(a), SortByPath(b), j, Leaf(p, File(mode, x)), Leaf(p, File(mode, y)), blake3, n);
    TextTells(mode, x, y, blake3);
  }

  lemma TextTells(mode: nat, x: string, y: string, blake3: string -> string)
    requires Apart(blake3, Digits(mode) + x, Digits(mode) + y)
    ensures HashAt(File(mode, x), blake3) == HashAt(File(mode, y), blake3) <==> x == y
  {
    if Digits(mode) + x == Digits(mode) + y {
      SamePrefix(Digits(mode), x, y);
    }
  }

  lemma SortedFiles(a: seq<Leaf>)
    requires AllFiles(a)
    ensures AllFiles(SortByPath(a))
  {
    forall l <- SortByPath(a) ensures l in a {
      assert l in multiset(SortByPath(a));
      assert l in multiset(a);
    }
  }
}
