/**
 * The few Python string operations the core relies on: `str.split(sep)`,
 * `sep.join(parts)`, the substring test `t in s` and ASCII `str.lower()`.
 */
module Strings {
  import opened Seqs

  /** Python's `t in s` for strings: t occurs in s as a contiguous substring. */
  predicate Contains(s: string, t: string) {
    exists i :: 0 <= i <= |s| - |t| && OccursAt(s, t, i)
  }

  /** t occurs in s starting at index i. */
  predicate OccursAt(s: string, t: string, i: int) {
    0 <= i && i + |t| <= |s| && s[i..i + |t|] == t
  }

  /**
   * Python's `s.split(sep)` for a non-empty separator: the pieces between the
   * non-overlapping occurrences of sep, found from left to right.
   */
  function Split(s: string, sep: string): (r: seq<string>)
    requires sep != []
    ensures |r| >= 1
    decreases |s|
  {
    if |s| < |sep| then [s]
    else if s[..|sep|] == sep then [""] + Split(s[|sep|..], sep)
    else
      var rest := Split(s[1..], sep);
      [[s[0]] + rest[0]] + rest[1..]
  }

  /** Python's `sep.join(parts)`. */
  function Join(sep: string, parts: seq<string>): string
  {
    if parts == [] then ""
    else if |parts| == 1 then parts[0]
    else parts[0] + sep + Join(sep, parts[1..])
  }

  lemma JoinCons(sep: string, p: string, parts: seq<string>)
    requires parts != []
    ensures Join(sep, [p] + parts) == p + sep + Join(sep, parts)
  {
    assert ([p] + parts)[1..] == parts;
  }

  /** Joining the pieces with the separator gives back the string that was split. */
  lemma {:induction false} SplitJoin(s: string, sep: string)
    requires sep != []
    ensures Join(sep, Split(s, sep)) == s
    decreases |s|
  {
    if |s| < |sep| {
    } else if s[..|sep|] == sep {
      var tail := s[|sep|..];
      SplitJoin(tail, sep);
      assert Split(s, sep) == [""] + Split(tail, sep);
      JoinCons(sep, "", Split(tail, sep));
      assert s == sep + tail;
    } else {
      SplitJoin(s[1..], sep);
      SplitJoinStep(s, sep);
    }
  }

  /** The step of SplitJoin where s does not start with the separator. */
  lemma SplitJoinStep(s: string, sep: string)
    requires sep != [] && |s| >= |sep| && s[..|sep|] != sep
    requires Join(sep, Split(s[1..], sep)) == s[1..]
    ensures Join(sep, Split(s, sep)) == s
  {
    var rest := Split(s[1..], sep);
    assert Split(s, sep) == [[s[0]] + rest[0]] + rest[1..];
    JoinPrepend(s[0], rest, sep);
    HeadTail(s);
  }

  /** Prepending a character to the first part prepends it to the joined string. */
  lemma JoinPrepend(c: char, parts: seq<string>, sep: string)
    requires parts != []
    ensures Join(sep, [[c] + parts[0]] + parts[1..]) == [c] + Join(sep, parts)
  {
    var first := [c] + parts[0];
    if |parts| == 1 {
      assert [[c] + parts[0]] + parts[1..] == [first];
    } else {
      var tail := Join(sep, parts[1..]);
      assert parts == [parts[0]] + parts[1..];
      JoinCons(sep, parts[0], parts[1..]);
      JoinCons(sep, first, parts[1..]);
      Assoc4([c], parts[0], sep, tail);
    }
  }

  /** The first piece of a split is a prefix of the string. */
  lemma SplitFirstPrefix(s: string, sep: string)
    requires sep != []
    ensures |Split(s, sep)[0]| <= |s| && Split(s, sep)[0] == s[..|Split(s, sep)[0]|]
  {
    var r := Split(s, sep);
    SplitJoin(s, sep);
    if |r| > 1 {
      assert r == [r[0]] + r[1..];
      JoinCons(sep, r[0], r[1..]);
    }
  }

  /** No piece of a split contains the separator. */
  lemma {:induction false} SplitPiecesFree(s: string, sep: string)
    requires sep != []
    ensures forall p :: p in Split(s, sep) ==> !Contains(p, sep)
    decreases |s|
  {
    if |s| < |sep| {
    } else if s[..|sep|] == sep {
      SplitPiecesFree(s[|sep|..], sep);
    } else {
      var rest := Split(s[1..], sep);
      SplitPiecesFree(s[1..], sep);
      var first := [s[0]] + rest[0];
      SplitFirstPrefix(s[1..], sep);
      assert first == s[..|first|];
      forall i | 0 <= i <= |first| - |sep| ensures !OccursAt(first, sep, i) {
        if i == 0 {
          assert first[0..|sep|] == first[..|sep|] == s[..|sep|];
        } else {
          assert first[i..i + |sep|] == rest[0][i - 1..i - 1 + |sep|];
          assert rest[0] in rest;
          assert !OccursAt(rest[0], sep, i - 1);
        }
      }
      forall p | p in Split(s, sep) ensures !Contains(p, sep) {
        if p != first {
          assert p in rest[1..];
        }
      }
    }
  }

  /** When the separator does not occur, the split is the whole string. */
  lemma {:induction false} SplitAbsent(s: string, sep: string)
    requires sep != [] && !Contains(s, sep)
    ensures Split(s, sep) == [s]
    decreases |s|
  {
    if |s| >= |sep| {
      assert !OccursAt(s, sep, 0);
      assert s[0..|sep|] == s[..|sep|];
      if Contains(s[1..], sep) {
        var i :| 0 <= i <= |s[1..]| - |sep| && OccursAt(s[1..], sep, i);
        assert s[i + 1..i + 1 + |sep|] == s[1..][i..i + |sep|];
        assert OccursAt(s, sep, i + 1);
      }
      SplitAbsent(s[1..], sep);
      assert [s[0]] + s[1..] == s;
    }
  }

  /**
   * A piece in which no occurrence of the separator starts, followed by the
   * separator, is split off as the first piece.
   */
  lemma {:induction false} SplitFirst(a: string, sep: string, b: string)
    requires sep != [] && forall i :: 0 <= i < |a| ==> !OccursAt(a + sep, sep, i)
    ensures Split(a + sep + b, sep) == [a] + Split(b, sep)
    decreases |a|
  {
    var s := a + sep + b;
    if a == [] {
      assert s == sep + b && s[..|sep|] == sep && s[|sep|..] == b;
    } else {
      assert !OccursAt(a + sep, sep, 0);
      assert s[..|sep|] == (a + sep)[0..|sep|];
      assert s[1..] == a[1..] + sep + b;
      forall i | 0 <= i < |a| - 1 ensures !OccursAt(a[1..] + sep, sep, i) {
        assert !OccursAt(a + sep, sep, i + 1);
        assert (a[1..] + sep)[i..i + |sep|] == (a + sep)[i + 1..i + 1 + |sep|];
      }
      SplitFirst(a[1..], sep, b);
      assert [s[0]] + a[1..] == a;
    }
  }

  /** A string without the separator's first character is a single piece. */
  lemma SplitNone(s: string, sep: string)
    requires sep != [] && forall i :: 0 <= i < |s| ==> s[i] != sep[0]
    ensures Split(s, sep) == [s]
  {
    forall i | 0 <= i <= |s| - |sep| ensures !OccursAt(s, sep, i) {
      assert s[i] != sep[0];
    }
    SplitAbsent(s, sep);
  }

  /** Python's `str.lower()` restricted to ASCII letters. */
  function Lower(s: string): (r: string)
    ensures |r| == |s|
    ensures forall i :: 0 <= i < |s| ==> r[i] == if 'A' <= s[i] <= 'Z' then s[i] - 'A' + 'a' else s[i]
  {
    if s == [] then [] else [if 'A' <= s[0] <= 'Z' then s[0] - 'A' + 'a' else s[0]] + Lower(s[1..])
  }

  /** Python's `str.isspace()` for one character: the characters `str.split()` and `str.strip()` treat as whitespace. */
  predicate IsSpace(c: char) {
    '\U{9}' <= c <= '\U{D}' || '\U{1C}' <= c <= '\U{1F}' || c == ' ' || c == '\U{85}' || c == '\U{A0}'
    || c == '\U{1680}' || '\U{2000}' <= c <= '\U{200A}' || c == '\U{2028}' || c == '\U{2029}'
    || c == '\U{202F}' || c == '\U{205F}' || c == '\U{3000}'
  }

  /** Python's `s.lstrip()`: the longest suffix of s that does not start with whitespace. */
  function TrimLeft(s: string): (r: string)
    ensures |r| <= |s| && r == s[|s| - |r|..]
    ensures r == [] || !IsSpace(r[0])
    ensures forall i :: 0 <= i < |s| - |r| ==> IsSpace(s[i])
  {
    if s == [] || !IsSpace(s[0]) then s else TrimLeft(s[1..])
  }

  /** Python's `s.rstrip()`: the longest prefix of s that does not end with whitespace. */
  function TrimRight(s: string): (r: string)
    ensures |r| <= |s| && r == s[..|r|]
    ensures r == [] || !IsSpace(r[|r| - 1])
    ensures forall i :: |r| <= i < |s| ==> IsSpace(s[i])
  {
    if s == [] || !IsSpace(s[|s| - 1]) then s else TrimRight(s[..|s| - 1])
  }

  /** Python's `s.strip()`. */
  function Strip(s: string): string
  {
    TrimRight(TrimLeft(s))
  }

  /** The longest prefix of s without whitespace. */
  function Word(s: string): (r: string)
    ensures |r| <= |s| && r == s[..|r|]
    ensures forall i :: 0 <= i < |r| ==> !IsSpace(r[i])
    ensures |r| == |s| || IsSpace(s[|r|])
    ensures s != [] && !IsSpace(s[0]) ==> |r| >= 1
  {
    if s == [] || IsSpace(s[0]) then [] else [s[0]] + Word(s[1..])
  }

  /** A token of `str.split()`: a non-empty run of non-whitespace characters. */
  predicate IsToken(t: string) {
    t != [] && forall i :: 0 <= i < |t| ==> !IsSpace(t[i])
  }

  /** Python's `s.split()` with no separator: the maximal runs of non-whitespace characters, in order. */
  function Tokens(s: string): (r: seq<string>)
    ensures forall t :: t in r ==> IsToken(t)
    decreases |s|
  {
    var t := TrimLeft(s);
    if t == [] then []
    else
      var w := Word(t);
      [w] + Tokens(t[|w|..])
  }

  /** A string that is all whitespace has no tokens, and one with a non-whitespace character has some. */
  lemma TokensEmpty(s: string)
    ensures Tokens(s) == [] <==> forall i :: 0 <= i < |s| ==> IsSpace(s[i])
  {
    var t := TrimLeft(s);
    if t != [] {
      assert !IsSpace(s[|s| - |t|]);
    }
  }

  /** Leading whitespace does not change the tokens. */
  lemma TokensSkipSpace(c: char, s: string)
    requires IsSpace(c)
    ensures Tokens([c] + s) == Tokens(s)
  {
    assert ([c] + s)[1..] == s;
  }

  /** A token followed by whitespace is split off as the first token. */
  lemma TokensFirst(w: string, c: char, s: string)
    requires IsToken(w) && IsSpace(c)
    ensures Tokens(w + [c] + s) == [w] + Tokens([c] + s)
  {
    var x := w + [c] + s;
    assert x[0] == w[0];
    assert TrimLeft(x) == x;
    WordPrefix(w, c, s);
    assert x[|w|..] == [c] + s;
    assert Tokens(x) == [Word(x)] + Tokens(x[|Word(x)|..]);
  }

  lemma {:induction false} WordPrefix(w: string, c: char, s: string)
    requires forall i :: 0 <= i < |w| ==> !IsSpace(w[i])
    requires IsSpace(c)
    ensures Word(w + [c] + s) == w
    decreases |w|
  {
    var x := w + [c] + s;
    if w != [] {
      assert x[1..] == w[1..] + [c] + s;
      WordPrefix(w[1..], c, s);
      assert [w[0]] + w[1..] == w;
    }
  }
}
