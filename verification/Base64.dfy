/** Standard base64 (section 4 of RFC 4648) over byte strings, with Go's decoder's view of line breaks. */
module Base64 {
  import opened Basics

  /** A Go string holds bytes; each is modelled as a character below 256. */
  type Byte = c: char | c as int < 256 witness 'a'
  type Bytes = seq<Byte>

  /** A value of six bits. */
  newtype Sextet = x: int | 0 <= x < 64

  function Symbol(x: Sextet): (c: char)
    ensures c != '=' && c != '\n' && c != '\r'
  {
    if x < 26 then ('A' as int + x as int) as char
    else if x < 52 then ('a' as int + (x as int - 26)) as char
    else if x < 62 then ('0' as int + (x as int - 52)) as char
    else if x == 62 then '+'
    else '/'
  }

  function SymbolValue(c: char): Option<Sextet>
  {
    if 'A' <= c <= 'Z' then Some((c as int - 'A' as int) as Sextet)
    else if 'a' <= c <= 'z' then Some((c as int - 'a' as int + 26) as Sextet)
    else if '0' <= c <= '9' then Some((c as int - '0' as int + 52) as Sextet)
    else if c == '+' then Some(62)
    else if c == '/' then Some(63)
    else None
  }

  lemma SymbolRoundTrip(x: Sextet)
    ensures SymbolValue(Symbol(x)) == Some(x)
  {
  }

  function First(a: int): Sextet
    requires 0 <= a < 256
  {
    (a / 4) as Sextet
  }

  function Second(a: int, b: int): Sextet
    requires 0 <= a < 256 && 0 <= b < 256
  {
    (a % 4 * 16 + b / 16) as Sextet
  }

  function Third(b: int, c: int): Sextet
    requires 0 <= b < 256 && 0 <= c < 256
  {
    (b % 16 * 4 + c / 64) as Sextet
  }

  function Fourth(c: int): Sextet
    requires 0 <= c < 256
  {
    (c % 64) as Sextet
  }

  /** base64.StdEncoding.EncodeToString */
  function Encode(s: Bytes): string
  {
    if s == [] then ""
    else
      var a := s[0] as int;
      if |s| == 1 then
        [Symbol(First(a)), Symbol(Second(a, 0)), '=', '=']
      else
        var b := s[1] as int;
        if |s| == 2 then
          [Symbol(First(a)), Symbol(Second(a, b)), Symbol(Third(b, 0)), '=']
        else
          var c := s[2] as int;
          [Symbol(First(a)), Symbol(Second(a, b)), Symbol(Third(b, c)), Symbol(Fourth(c))] + Encode(s[3..])
  }

  function FirstByte(x: Sextet, y: Sextet): Byte
  {
    (x as int * 4 + y as int / 16) as char
  }

  function SecondByte(y: Sextet, z: Sextet): Byte
  {
    (y as int % 16 * 16 + z as int / 4) as char
  }

  function ThirdByte(z: Sextet, w: Sextet): Byte
  {
    (z as int % 4 * 64 + w as int) as char
  }

  /** The groups of four, once line breaks are gone. Padding is allowed in the last one only. */
  function DecodeGroups(s: string): Option<Bytes>
  {
    if s == "" then Some([])
    else if |s| < 4 then None
    else
      var x, y := SymbolValue(s[0]), SymbolValue(s[1]);
      if x.None? || y.None? then None
      else if s[3] == '=' then
        if |s| > 4 then None
        else if s[2] == '=' then Some([FirstByte(x.value, y.value)])
        else
          match SymbolValue(s[2])
          case None => None
          case Some(z) => Some([FirstByte(x.value, y.value), SecondByte(y.value, z)])
      else
        var z, w := SymbolValue(s[2]), SymbolValue(s[3]);
        if z.None? || w.None? then None
        else
          match DecodeGroups(s[4..])
          case None => None
          case Some(rest) =>
            Some([FirstByte(x.value, y.value), SecondByte(y.value, z.value), ThirdByte(z.value, w.value)] + rest)
  }

  function WithoutLineBreaks(s: string): (r: string)
    ensures '\n' !in s && '\r' !in s ==> r == s
  {
    if s == "" then ""
    else if s[0] == '\n' || s[0] == '\r' then WithoutLineBreaks(s[1..])
    else [s[0]] + WithoutLineBreaks(s[1..])
  }

  /** base64.StdEncoding.DecodeString, which skips line breaks anywhere. */
  function Decode(s: string): Option<Bytes>
  {
    DecodeGroups(WithoutLineBreaks(s))
  }

  /** A line break makes no difference, wherever it is. */
  lemma {:induction false} LineBreaksAreSkipped(before: string, c: char, after: string)
    requires c == '\n' || c == '\r'
    ensures WithoutLineBreaks(before + [c] + after) == WithoutLineBreaks(before + after)
    ensures Decode(before + [c] + after) == Decode(before + after)
    decreases |before|
  {
    hide DecodeGroups;
    if before == "" {
      assert before + [c] + after == [c] + after && before + after == after;
    } else {
      LineBreaksAreSkipped(before[1..], c, after);
      assert before + [c] + after == [before[0]] + (before[1..] + [c] + after);
      assert before + after == [before[0]] + (before[1..] + after);
    }
  }

  lemma ThreeBytes(a: Byte, b: Byte, c: Byte)
    ensures FirstByte(First(a as int), Second(a as int, b as int)) == a
    ensures SecondByte(Second(a as int, b as int), Third(b as int, c as int)) == b
    ensures ThirdByte(Third(b as int, c as int), Fourth(c as int)) == c
  {
  }

  lemma {:induction false} EncodedHasNoBreaks(s: Bytes)
    ensures '\n' !in Encode(s) && '\r' !in Encode(s)
    decreases |s|
  {
    if |s| > 2 {
      EncodedHasNoBreaks(s[3..]);
    }
  }

  lemma {:induction false} GroupsRoundTrip(s: Bytes)
    ensures DecodeGroups(Encode(s)) == Some(s)
    decreases |s|
  {
    hide Symbol, SymbolValue, First, Second, Third, Fourth, FirstByte, SecondByte, ThirdByte;
    if s != [] {
      var a: Byte := s[0];
      var b: Byte := if |s| > 1 then s[1] else '\0';
      var c: Byte := if |s| > 2 then s[2] else '\0';
      SymbolRoundTrip(First(a as int));
      SymbolRoundTrip(Second(a as int, b as int));
      SymbolRoundTrip(Third(b as int, c as int));
      SymbolRoundTrip(Fourth(c as int));
      ThreeBytes(a, b, c);
      if |s| == 1 {
        assert s == [a];
      } else if |s| == 2 {
        assert s == [a, b];
      } else {
        GroupsRoundTrip(s[3..]);
        assert Encode(s)[4..] == Encode(s[3..]);
        assert s == [a, b, c] + s[3..];
      }
    }
  }

  /** Decoding gives back exactly the bytes that were encoded. */
  lemma RoundTrip(s: Bytes)
    ensures Decode(Encode(s)) == Some(s)
  {
    EncodedHasNoBreaks(s);
    GroupsRoundTrip(s);
  }

  /** The letters, capitals first, the digits, plus and slash, in that order (table 1 of the RFC). */
  lemma SymbolsInOrder()
    ensures Symbol(0) == 'A' && Symbol(25) == 'Z' && Symbol(26) == 'a' && Symbol(51) == 'z'
    ensures Symbol(52) == '0' && Symbol(61) == '9' && Symbol(62) == '+' && Symbol(63) == '/'
    ensures forall x: Sextet :: x < 61 && x != 25 && x != 51 ==> Symbol(x + 1) as int == Symbol(x) as int + 1
  {
  }

  /** A character of the alphabet. */
  predicate IsSymbol(c: char)
  {
    'A' <= c <= 'Z' || 'a' <= c <= 'z' || '0' <= c <= '9' || c == '+' || c == '/'
  }

  /** Four symbols stand for three bytes: the same number, in base 64 and in base 256. */
  ghost predicate Groups(group: string, a: int, b: int, c: int)
  {
    exists x: Sextet, y: Sextet, z: Sextet, w: Sextet ::
      && group == [Symbol(x), Symbol(y), Symbol(z), Symbol(w)]
      && 262144 * x as int + 4096 * y as int + 64 * z as int + w as int == 65536 * a + 256 * b + c
  }

  function GroupOf(a: Byte, b: Byte, c: Byte): string
  {
    [Symbol(First(a as int)), Symbol(Second(a as int, b as int)), Symbol(Third(b as int, c as int)), Symbol(Fourth(c as int))]
  }

  lemma GroupOfThree(a: Byte, b: Byte, c: Byte)
    ensures Groups(GroupOf(a, b, c), a as int, b as int, c as int)
  {
    hide Symbol;
  }

  /**
   Three bytes are encoded by the four symbols for their number, and what follows them on its own; a
   last one or two by the leading two or three symbols, as if zeros followed, and padding.
   */
  lemma EncodesByGroups(s: Bytes)
    requires s != []
    ensures |s| == 1 ==> exists g: string :: Groups(g, s[0] as int, 0, 0) && Encode(s) == [g[0], g[1], '=', '=']
    ensures |s| == 2 ==> exists g: string :: Groups(g, s[0] as int, s[1] as int, 0) && Encode(s) == [g[0], g[1], g[2], '=']
    ensures |s| >= 3 ==> exists g: string :: Groups(g, s[0] as int, s[1] as int, s[2] as int) && Encode(s) == g + Encode(s[3..])
  {
    hide Symbol, First, Second, Third, Fourth, Groups;
    var g := GroupOf(s[0], if |s| > 1 then s[1] else '\0', if |s| > 2 then s[2] else '\0');
    GroupOfThree(s[0], if |s| > 1 then s[1] else '\0', if |s| > 2 then s[2] else '\0');
    if |s| == 1 {
      assert Encode(s) == [g[0], g[1], '=', '='];
    } else if |s| == 2 {
      assert Encode(s) == [g[0], g[1], g[2], '='];
    } else {
      assert Encode(s) == g + Encode(s[3..]);
    }
  }

  /** With so many padding characters at the end. */
  predicate Padded(s: string, n: nat)
    requires n <= |s|
  {
    && (forall k :: 0 <= k < |s| - n ==> IsSymbol(s[k]))
    && forall k :: |s| - n <= k < |s| ==> s[k] == '='
  }

  /** All symbols but up to two padding characters at the very end, in groups of four. */
  predicate WellFormed(s: string)
  {
    && |s| % 4 == 0
    && exists n: nat :: n <= 2 && n <= |s| && Padded(s, n)
  }

  /** Exactly the well-formed texts are decoded, once line breaks are gone. */
  lemma DecodesIff(s: string)
    ensures Decode(s).Some? <==> WellFormed(WithoutLineBreaks(s))
  {
    GroupsDecodeIff(WithoutLineBreaks(s));
  }

  lemma OneGroup(s: string)
    requires |s| == 4
    ensures WellFormed(s) <==>
              && IsSymbol(s[0]) && IsSymbol(s[1])
              && (IsSymbol(s[2]) || s[2] == s[3] == '=') && (IsSymbol(s[3]) || s[3] == '=')
  {
    assert Padded(s, 0) <==> IsSymbol(s[0]) && IsSymbol(s[1]) && IsSymbol(s[2]) && IsSymbol(s[3]);
    assert Padded(s, 1) <==> IsSymbol(s[0]) && IsSymbol(s[1]) && IsSymbol(s[2]) && s[3] == '=';
    assert Padded(s, 2) <==> IsSymbol(s[0]) && IsSymbol(s[1]) && s[2] == '=' && s[3] == '=';
  }

  lemma OneMoreGroup(s: string)
    requires |s| > 4
    ensures WellFormed(s) <==>
              IsSymbol(s[0]) && IsSymbol(s[1]) && IsSymbol(s[2]) && IsSymbol(s[3]) && WellFormed(s[4..])
  {
    forall n: nat | n <= 2 && n <= |s| - 4
      ensures Padded(s, n) <==>
                IsSymbol(s[0]) && IsSymbol(s[1]) && IsSymbol(s[2]) && IsSymbol(s[3]) && Padded(s[4..], n)
    {
      var t := s[4..];
      assert forall k :: 4 <= k < |s| ==> s[k] == t[k - 4];
      assert forall k :: 0 <= k < |t| ==> t[k] == s[k + 4];
    }
  }

  lemma {:induction false} GroupsDecodeIff(s: string)
    ensures DecodeGroups(s).Some? <==> WellFormed(s)
    decreases |s|
  {
    hide FirstByte, SecondByte, ThirdByte;
    if |s| >= 4 {
      if |s| == 4 {
        assert s[4..] == "";
        OneGroup(s);
      } else {
        GroupsDecodeIff(s[4..]);
        OneMoreGroup(s);
      }
    } else {
      assert s == "" ==> Padded(s, 0);
    }
  }
}
