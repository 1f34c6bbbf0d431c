/** Small shared vocabulary: optional values and the string operations the controller relies on. */
module Basics {

  datatype Option<+T> = None | Some(value: T)

  /** The first position of c in s, or |s| when c does not occur. */
  function IndexOf<T(==)>(s: seq<T>, c: T): (i: nat)
    ensures i <= |s|
    ensures c !in s[..i]
    ensures i < |s| ==> s[i] == c
  {
    if s == [] then 0
    else if s[0] == c then 0
    else
      var i := 1 + IndexOf(s[1..], c);
      assert s[..i] == [s[0]] + s[1..][..i - 1];
      i
  }

  /** xstrings.Partition with a one-character separator: the parts before and after its first occurrence. */
  function Partition<T(==)>(s: seq<T>, c: T): (seq<T>, seq<T>)
  {
    var i := IndexOf(s, c);
    if i < |s| then (s[..i], s[i + 1..]) else (s, [])
  }

  /** A separator that does not occur leaves the whole string in the first part. */
  lemma PartitionOfWhole<T>(s: seq<T>, c: T)
    requires c !in s
    ensures IndexOf(s, c) == |s| && Partition(s, c) == (s, [])
  {
    assert forall k :: 0 <= k < |s| ==> s[k] in s;
  }

  /** The first occurrence of a separator is where the string is cut, whatever follows it. */
  lemma PartitionOfJoined<T>(a: seq<T>, c: T, b: seq<T>)
    requires c !in a
    ensures Partition(a + [c] + b, c) == (a, b)
  {
    var s := a + [c] + b;
    var i := IndexOf(s, c);
    assert s[|a|] == c;
    var before := s[..i];
    assert forall k :: 0 <= k < |before| ==> before[k] == s[k] && before[k] != c;
    assert i <= |a|;
    assert forall k :: 0 <= k < |a| ==> s[k] == a[k] && a[k] in a;
    assert i >= |a|;
    assert s[..|a|] == a && s[|a| + 1..] == b;
  }

  function Join(parts: seq<string>, separator: string): string
  {
    if parts == [] then ""
    else if |parts| == 1 then parts[0]
    else parts[0] + separator + Join(parts[1..], separator)
  }

  /** Decimal rendering, the stand-in for the globally unique xid in generated names. */
  function Digits(n: nat): string
  {
    if n < 10 then [DigitChar(n)] else Digits(n / 10) + [DigitChar(n % 10)]
  }

  function DigitChar(n: nat): char
    requires n < 10
  {
    "0123456789"[n]
  }

  /** Reading a Go map[string]string at a missing key yields the empty string. */
  function Lookup<K>(m: map<K, string>, k: K): string
  {
    if k in m then m[k] else ""
  }

  lemma {:induction false} DigitsInjective(a: nat, b: nat)
    requires Digits(a) == Digits(b)
    ensures a == b
  {
    var x, y := Digits(a), Digits(b);
    assert x[|x| - 1] == DigitChar(a % 10);
    assert y[|y| - 1] == DigitChar(b % 10);
    DigitCharInjective(a % 10, b % 10);
    if a >= 10 && b >= 10 {
      assert x[..|x| - 1] == Digits(a / 10);
      assert y[..|y| - 1] == Digits(b / 10);
      DigitsInjective(a / 10, b / 10);
    } else {
      DigitsLength(a);
      DigitsLength(b);
    }
  }

  lemma DigitsLength(n: nat)
    ensures |Digits(n)| >= 1
    ensures n >= 10 ==> |Digits(n)| >= 2
  {
    if n >= 10 {
      DigitsLength(n / 10);
    }
  }

  lemma DigitCharInjective(a: nat, b: nat)
    requires a < 10 && b < 10 && DigitChar(a) == DigitChar(b)
    ensures a == b
  {
  }

  /** Appending the same text keeps different endings apart. */
  lemma SamePrefix(prefix: string, a: string, b: string)
    requires prefix + a == prefix + b
    ensures a == b
  {
    assert (prefix + a)[|prefix|..] == a;
    assert (prefix + b)[|prefix|..] == b;
  }

  /** The position of the first occurrence of a separator, or the length. */
  function FirstAt(s: string, separator: string): (k: nat)
    ensures k <= |s|
    ensures k < |s| ==> separator <= s[k..]
    ensures forall i :: 0 <= i < k ==> !(separator <= s[i..])
  {
    if s == "" || separator <= s then 0
    else
      var k := 1 + FirstAt(s[1..], separator);
      assert forall i :: 1 <= i < k ==> s[i..] == s[1..][i - 1..];
      assert k < |s| ==> s[k..] == s[1..][k - 1..];
      k
  }

  /** strings.Split: the parts between the occurrences of a separator. */
  function Cut(s: string, separator: string): (r: seq<string>)
    requires separator != ""
    ensures r != []
    decreases |s|
  {
    var k := FirstAt(s, separator);
    if k == |s| then [s] else [s[..k]] + Cut(s[k + |separator|..], separator)
  }

  /** The separator does not occur in a part, and cannot begin in one and end after it. */
  predicate FreeOf(part: string, separator: string)
  {
    forall k :: 0 <= k < |part| ==> !(separator <= (part + separator)[k..])
  }

  lemma StillPrefix(separator: string, a: string, b: string)
    ensures separator <= a ==> separator <= a + b
    ensures |separator| <= |a| ==> (separator <= a + b <==> separator <= a)
  {
    assert |separator| <= |a| ==> (a + b)[..|separator|] == a[..|separator|];
  }

  lemma NotInside(part: string, separator: string, rest: string, k: nat)
    requires FreeOf(part, separator) && k < |part|
    ensures !(separator <= (part + separator + rest)[k..]) && !(separator <= part[k..])
  {
    assert (part + separator + rest)[k..] == (part + separator)[k..] + rest;
    assert (part + separator)[k..] == part[k..] + separator;
    StillPrefix(separator, (part + separator)[k..], rest);
    StillPrefix(separator, part[k..], separator);
  }

  lemma FirstAfter(part: string, separator: string, rest: string)
    requires separator != "" && FreeOf(part, separator)
    ensures FirstAt(part + separator + rest, separator) == |part|
    ensures FirstAt(part, separator) == |part|
  {
    var s := part + separator + rest;
    assert s[|part|..] == separator + rest;
    forall k: nat | k < |part| ensures !(separator <= s[k..]) && !(separator <= part[k..]) {
      NotInside(part, separator, rest, k);
    }
  }

  /** Cutting what was joined gives the parts back. */
  lemma {:induction false} CutJoined(parts: seq<string>, separator: string)
    requires separator != "" && parts != [] && forall p <- parts :: FreeOf(p, separator)
    ensures Cut(Join(parts, separator), separator) == parts
  {
    hide FreeOf, FirstAt;
    var p := parts[0];
    assert p in parts;
    if |parts| == 1 {
      FirstAfter(p, separator, "");
    } else {
      var rest := Join(parts[1..], separator);
      FirstAfter(p, separator, rest);
      var s := p + separator + rest;
      assert s[..|p|] == p && s[|p| + |separator|..] == rest;
      CutJoined(parts[1..], separator);
    }
  }

  lemma JoinMore(part: string, parts: seq<string>, separator: string)
    requires parts != []
    ensures Join([part] + parts, separator) == part + separator + Join(parts, separator)
  {
    assert ([part] + parts)[1..] == parts;
  }

  lemma JoinOne(part: string, separator: string)
    ensures Join([part], separator) == part
  {
  }

  /** Joining what was cut gives the string back. */
  lemma {:induction false} JoinedCut(s: string, separator: string)
    requires separator != ""
    ensures Join(Cut(s, separator), separator) == s
    decreases |s|
  {
    hide FirstAt, Join;
    var k := FirstAt(s, separator);
    if k < |s| {
      var rest := s[k + |separator|..];
      JoinedCut(rest, separator);
      JoinMore(s[..k], Cut(rest, separator), separator);
      assert s[k..] == separator + rest;
      assert s == s[..k] + separator + rest;
    } else {
      JoinOne(s, separator);
    }
  }

  /** With a comma and a blank as the separator only a part that contains it is not free of it. */
  lemma CommaFree(part: string)
    ensures FreeOf(part, ", ") <==> forall k :: 0 <= k < |part| ==> !(", " <= part[k..])
  {
    forall k | 0 <= k < |part| ensures ", " <= (part + ", ")[k..] <==> ", " <= part[k..] {
      assert (part + ", ")[k..] == part[k..] + ", ";
      assert |part[k..]| == 1 ==> (part[k..] + ", ")[1] == ',';
    }
  }
}
