/**
 * The Kotlin string operations the share-link parser relies on:
 * `startsWith`, `trim`, `isBlank` and `split(c)` with a single-character
 * delimiter and no limit.
 */
module Text {

  /** Kotlin's `Char.isWhitespace()` on the JVM: `Character.isWhitespace(c) || Character.isSpaceChar(c)`. */
  predicate IsWhitespace(c: char)
  {
    || c == ' ' || c == '\t' || c == '\n' || c == '\U{000B}' || c == '\U{000C}' || c == '\r'
    || ('\U{001C}' <= c <= '\U{001F}')
    || c == '\U{00A0}' || c == '\U{1680}'
    || ('\U{2000}' <= c <= '\U{200A}')
    || c == '\U{2028}' || c == '\U{2029}' || c == '\U{202F}' || c == '\U{205F}' || c == '\U{3000}'
  }

  predicate StartsWith(s: string, prefix: string)
  {
    |prefix| <= |s| && s[..|prefix|] == prefix
  }

  /** `CharSequence.isBlank()`: every character is whitespace (so the empty string is blank). */
  predicate IsBlank(s: string)
  {
    forall i :: 0 <= i < |s| ==> IsWhitespace(s[i])
  }

  /** Drops the leading whitespace: what remains is a suffix that is empty or starts with a non-whitespace character. */
  function TrimStart(s: string): (r: string)
    ensures |r| <= |s| && r == s[|s| - |r|..]
    ensures forall i :: 0 <= i < |s| - |r| ==> IsWhitespace(s[i])
    ensures r == [] || !IsWhitespace(r[0])
  {
    if s != [] && IsWhitespace(s[0]) then TrimStart(s[1..]) else s
  }

  /** Drops the trailing whitespace: what remains is a prefix that is empty or ends with a non-whitespace character. */
  function TrimEnd(s: string): (r: string)
    ensures |r| <= |s| && r == s[..|r|]
    ensures forall i :: |r| <= i < |s| ==> IsWhitespace(s[i])
    ensures r == [] || !IsWhitespace(r[|r| - 1])
  {
    if s != [] && IsWhitespace(s[|s| - 1]) then TrimEnd(s[..|s| - 1]) else s
  }

  /** Kotlin's `String.trim()`. */
  function Trim(s: string): string
  {
    TrimEnd(TrimStart(s))
  }

  /** Where the trimmed text starts in the original: the number of leading whitespace characters. */
  function TrimOffset(s: string): nat
  {
    |s| - |TrimStart(s)|
  }

  /**
   * `trim` keeps exactly the slice between the first and the last
   * non-whitespace characters: everything cut off is whitespace, and the
   * slice is empty or begins and ends with a non-whitespace character.
   */
  lemma TrimIsCore(s: string)
    ensures var r, k := Trim(s), TrimOffset(s);
      && (r == [] || (!IsWhitespace(r[0]) && !IsWhitespace(r[|r| - 1])))
      && k + |r| <= |s| && r == s[k..k + |r|]
      && (forall i :: 0 <= i < k ==> IsWhitespace(s[i]))
      && (forall i :: k + |r| <= i < |s| ==> IsWhitespace(s[i]))
  {
    TrimSlice(s);
    TrimTail(s);
    TrimEnds(s);
  }

  lemma TrimSlice(s: string)
    ensures TrimOffset(s) + |Trim(s)| <= |s| && Trim(s) == s[TrimOffset(s)..TrimOffset(s) + |Trim(s)|]
  {
    var t := TrimStart(s);
    assert t == s[|s| - |t|..];
    assert TrimEnd(t) == t[..|TrimEnd(t)|];
  }

  lemma TrimTail(s: string)
    ensures forall i :: TrimOffset(s) + |Trim(s)| <= i < |s| ==> IsWhitespace(s[i])
  {
    var t := TrimStart(s);
    var k := |s| - |t|;
    forall i | k + |Trim(s)| <= i < |s|
      ensures IsWhitespace(s[i])
    {
      assert s[i] == t[i - k];
    }
  }

  lemma TrimEnds(s: string)
    ensures Trim(s) == [] || (!IsWhitespace(Trim(s)[0]) && !IsWhitespace(Trim(s)[|Trim(s)| - 1]))
  {
    var t := TrimStart(s);
    var r := TrimEnd(t);
    if r != [] {
      assert r[0] == t[0];
    }
  }

  /** Trimming twice is trimming once. */
  lemma TrimIdempotent(s: string)
    ensures Trim(Trim(s)) == Trim(s)
  {
    var r := Trim(s);
    if r != [] {
      TrimIsCore(s);
    }
  }

  /** A blank string trims to nothing at the front. */
  lemma {:induction false} BlankTrimsAway(s: string)
    requires IsBlank(s)
    ensures TrimStart(s) == []
  {
    if s != [] {
      BlankTrimsAway(s[1..]);
    }
  }

  /** A string is blank exactly when trimming it leaves nothing. */
  lemma BlankIffTrimsToEmpty(s: string)
    ensures IsBlank(s) <==> Trim(s) == []
  {
    var t := TrimStart(s);
    if IsBlank(s) {
      BlankTrimsAway(s);
    }
    if Trim(s) == [] {
      assert t == [] by {
        assert forall i :: 0 <= i < |t| ==> IsWhitespace(t[i]);
      }
    }
  }

  /**
   * Kotlin's `split(c)` with no limit: every occurrence of `c` separates two
   * pieces, so the pieces keep empty strings (leading, trailing or between
   * adjacent delimiters) and there is always at least one.
   */
  function Split(s: string, c: char): (r: seq<string>)
    ensures |r| >= 1
  {
    if s == [] then [""]
    else
      var rest := Split(s[1..], c);
      if s[0] == c then [""] + rest else [[s[0]] + rest[0]] + rest[1..]
  }

  /** No piece of a split holds the delimiter. */
  lemma {:induction false} SplitPiecesFree(s: string, c: char)
    ensures forall i :: 0 <= i < |Split(s, c)| ==> c !in Split(s, c)[i]
  {
    if s != [] {
      SplitPiecesFree(s[1..], c);
      var rest := Split(s[1..], c);
      if s[0] != c {
        assert Split(s, c)[0] == [s[0]] + rest[0];
      }
    }
  }

  /** Puts the pieces back together with `c` between consecutive pieces. */
  function Join(parts: seq<string>, c: char): string
  {
    if parts == [] then ""
    else if |parts| == 1 then parts[0]
    else parts[0] + [c] + Join(parts[1..], c)
  }

  /** Joining the pieces of a split gives back the text. */
  lemma {:induction false} JoinSplit(s: string, c: char)
    ensures Join(Split(s, c), c) == s
  {
    if s != [] {
      var rest := Split(s[1..], c);
      JoinSplit(s[1..], c);
      if s[0] == c {
        assert Split(s, c) == [""] + rest;
      } else {
        var r := Split(s, c);
        assert r == [[s[0]] + rest[0]] + rest[1..];
        if |rest| == 1 {
          assert Join(r, c) == [s[0]] + rest[0];
        } else {
          assert Join(rest, c) == rest[0] + [c] + Join(rest[1..], c);
          assert r[1..] == rest[1..];
          assert Join(r, c) == [s[0]] + rest[0] + [c] + Join(rest[1..], c);
        }
      }
    }
  }

  /** A text without the delimiter is a single piece. */
  lemma {:induction false} SplitWithoutDelimiter(s: string, c: char)
    requires c !in s
    ensures Split(s, c) == [s]
  {
    if s != [] {
      SplitWithoutDelimiter(s[1..], c);
      assert [s[0]] + s[1..] == s;
    }
  }

  /** A delimiter-free piece followed by the delimiter is split off whole. */
  lemma {:induction false} SplitAfterPiece(a: string, c: char, b: string)
    requires c !in a
    ensures Split(a + [c] + b, c) == [a] + Split(b, c)
  {
    if a != [] {
      assert (a + [c] + b)[1..] == a[1..] + [c] + b;
      SplitAfterPiece(a[1..], c, b);
      assert [a[0]] + a[1..] == a;
    } else {
      assert a + [c] + b == [c] + b;
      assert ([c] + b)[1..] == b;
    }
  }

  /** Splitting a join of delimiter-free pieces gives back the pieces. */
  lemma {:induction false} SplitJoin(parts: seq<string>, c: char)
    requires |parts| >= 1
    requires forall i :: 0 <= i < |parts| ==> c !in parts[i]
    ensures Split(Join(parts, c), c) == parts
  {
    if |parts| == 1 {
      SplitWithoutDelimiter(parts[0], c);
    } else {
      SplitJoin(parts[1..], c);
      SplitAfterPiece(parts[0], c, Join(parts[1..], c));
      assert [parts[0]] + parts[1..] == parts;
    }
  }

  /** The first piece of a split is a prefix of the text, followed by the delimiter unless it is the whole text. */
  lemma {:induction false} SplitFirstPiece(s: string, c: char)
    ensures var w := Split(s, c)[0];
      |w| <= |s| && w == s[..|w|] && (|w| == |s| || s[|w|] == c)
  {
    if s != [] && s[0] != c {
      SplitFirstPiece(s[1..], c);
      var rest := Split(s[1..], c);
      assert Split(s, c)[0] == [s[0]] + rest[0];
    }
  }

  /** A delimiter-free prefix of the text is also a prefix of its first piece. */
  lemma FirstPieceKeepsPrefix(s: string, c: char, prefix: string)
    requires c !in prefix
    requires StartsWith(s, prefix)
    ensures StartsWith(Split(s, c)[0], prefix)
  {
    var w := Split(s, c)[0];
    SplitFirstPiece(s, c);
    assert w[..|prefix|] == s[..|prefix|];
  }
}
