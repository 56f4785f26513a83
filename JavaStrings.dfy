/** The parts of `java.lang.String` and `java.util.Formatter` that the text
    helpers and the stats layout use, with case mapping restricted to ASCII:
    `Character.isWhitespace`, `toUpperCase`, single-character `replace`,
    `split` around a single ordinary character, and `%-Ns` padding. */
module JavaStrings {

  /** `Character.isWhitespace`: space, tab, line feed, vertical tab, form
      feed, carriage return, the four separators U+001C..U+001F, and the
      Unicode space, line and paragraph separators except the no-break
      spaces U+00A0, U+2007 and U+202F. */
  predicate IsWhitespace(c: char) {
    c == ' ' || c == '\t' || c == '\n' || c == '\U{000B}' || c == '\U{000C}' || c == '\r'
    || ('\U{001C}' <= c <= '\U{001F}')
    || c == '\U{1680}' || ('\U{2000}' <= c <= '\U{2006}') || ('\U{2008}' <= c <= '\U{200A}')
    || c == '\U{2028}' || c == '\U{2029}' || c == '\U{205F}' || c == '\U{3000}'
  }

  /** ASCII upper case of one character; every other character is kept. */
  function ToUpper(c: char): char {
    if 'a' <= c <= 'z' then (c as int - 32) as char else c
  }

  lemma ToUpperFacts(c: char)
    ensures ToUpper(ToUpper(c)) == ToUpper(c)
    ensures IsWhitespace(ToUpper(c)) == IsWhitespace(c)
    ensures ToUpper(c) == '-' <==> c == '-'
    ensures ToUpper(c) == '/' <==> c == '/'
  {
  }

  /** `s.toUpperCase()`. */
  function UpperCase(s: string): (r: string)
    ensures |r| == |s|
    ensures forall i :: 0 <= i < |s| ==> r[i] == ToUpper(s[i])
  {
    if s == [] then [] else [ToUpper(s[0])] + UpperCase(s[1..])
  }

  /** `s.replace(from, to)` for one-character strings `from` and `to`. */
  function ReplaceChar(s: string, from: char, to: char): (r: string)
    ensures |r| == |s|
    ensures forall i :: 0 <= i < |s| ==> r[i] == if s[i] == from then to else s[i]
  {
    if s == [] then [] else [if s[0] == from then to else s[0]] + ReplaceChar(s[1..], from, to)
  }

  lemma ReplaceCharAbsent(s: string, from: char, to: char)
    requires from !in s
    ensures ReplaceChar(s, from, to) == s
  {
  }

  // ---------------------------------------------------------------------
  // split

  /** Every piece of `s` between occurrences of `c`, empty ones included:
      one more piece than there are occurrences of `c`. */
  function Pieces(s: string, c: char): (r: seq<string>)
    ensures |r| > 0
    ensures forall k :: 0 <= k < |r| ==> c !in r[k]
    decreases |s|
  {
    if |s| == 0 then [[]] else Extend(Pieces(s[..|s| - 1], c), s[|s| - 1], c)
  }

  /** The pieces after one more character `d`: a separator opens a new empty
      piece, any other character is appended to the last piece. */
  function Extend(pieces: seq<string>, d: char, c: char): (r: seq<string>)
    requires |pieces| > 0
    requires forall k :: 0 <= k < |pieces| ==> c !in pieces[k]
    ensures |r| > 0
    ensures forall k :: 0 <= k < |r| ==> c !in r[k]
  {
    if d == c then pieces + [[]]
    else pieces[..|pieces| - 1] + [pieces[|pieces| - 1] + [d]]
  }

  lemma ExtendConcat(front: seq<string>, pieces: seq<string>, d: char, c: char)
    requires |pieces| > 0
    requires forall k :: 0 <= k < |front| ==> c !in front[k]
    requires forall k :: 0 <= k < |pieces| ==> c !in pieces[k]
    ensures Extend(front + pieces, d, c) == front + Extend(pieces, d, c)
  {
    var all := front + pieces;
    if d != c {
      assert all[..|all| - 1] == front + pieces[..|pieces| - 1];
    }
  }

  /** The parts joined with `c` between each two of them. */
  function Join(parts: seq<string>, c: char): string {
    if |parts| == 0 then []
    else if |parts| == 1 then parts[0]
    else Join(parts[..|parts| - 1], c) + [c] + parts[|parts| - 1]
  }

  /** What is left of the parts once the empty ones at the end are removed. */
  function DropTrailingEmpty(parts: seq<string>): (r: seq<string>)
    ensures |r| <= |parts| && r == parts[..|r|]
    ensures forall k :: |r| <= k < |parts| ==> parts[k] == []
    ensures |r| > 0 ==> r[|r| - 1] != []
  {
    if |parts| == 0 then []
    else if parts[|parts| - 1] == [] then DropTrailingEmpty(parts[..|parts| - 1])
    else parts
  }

  /** `s` without the occurrences of `c` at its end. */
  function TrimTrailing(s: string, c: char): (r: string)
    ensures |r| <= |s| && r == s[..|r|]
    ensures forall k :: |r| <= k < |s| ==> s[k] == c
    ensures |r| > 0 ==> r[|r| - 1] != c
  {
    if |s| == 0 then []
    else if s[|s| - 1] == c then TrimTrailing(s[..|s| - 1], c)
    else s
  }

  /** Trailing separators only come off the end: once `y` keeps something,
      whatever precedes it stays. */
  lemma {:induction false} TrimTrailingConcat(x: string, y: string, c: char)
    requires TrimTrailing(y, c) != []
    ensures TrimTrailing(x + y, c) == x + TrimTrailing(y, c)
    decreases |y|
  {
    var z := x + y;
    if y[|y| - 1] == c {
      assert z[..|z| - 1] == x + y[..|y| - 1];
      TrimTrailingConcat(x, y[..|y| - 1], c);
    }
  }

  /** `s.split(c)` for a character that is not a regular-expression
      metacharacter (Java's fast path, limit 0): without an occurrence of `c`
      the result is `[s]`, even for the empty string; otherwise the pieces,
      with the trailing empty ones removed. */
  function Split(s: string, c: char): (r: seq<string>)
    ensures forall k :: 0 <= k < |r| ==> c !in r[k]
  {
    if c !in s then [s] else DropTrailingEmpty(Pieces(s, c))
  }

  lemma {:induction false} JoinPieces(s: string, c: char)
    ensures Join(Pieces(s, c), c) == s
    decreases |s|
  {
    if |s| > 0 {
      var s' := s[..|s| - 1];
      var d := s[|s| - 1];
      var init := Pieces(s', c);
      JoinPieces(s', c);
      if d == c {
        assert (init + [[]])[..|init|] == init;
      } else {
        var n := |init|;
        var p := Extend(init, d, c);
        assert p[n - 1] == init[n - 1] + [d];
        if n > 1 {
          assert p[..n - 1] == init[..n - 1];
          assert init == init[..n - 1] + [init[n - 1]];
        }
      }
      assert s == s' + [d];
    }
  }

  lemma {:induction false} JoinDropTrailingEmpty(parts: seq<string>, c: char)
    requires forall k :: 0 <= k < |parts| ==> c !in parts[k]
    ensures Join(DropTrailingEmpty(parts), c) == TrimTrailing(Join(parts, c), c)
  {
    var n := |parts|;
    if n == 0 {
    } else if parts[n - 1] == [] {
      var init := parts[..n - 1];
      if n == 1 {
        assert Join(parts, c) == [];
      } else {
        JoinDropTrailingEmpty(init, c);
        var j := Join(parts, c);
        assert j == Join(init, c) + [c];
        assert j[..|j| - 1] == Join(init, c);
      }
    } else {
      var j := Join(parts, c);
      if n > 1 {
        assert j[|j| - 1] == parts[n - 1][|parts[n - 1]| - 1];
      }
      assert j[|j| - 1] != c;
    }
  }

  lemma {:induction false} JoinHasSeparator(parts: seq<string>, c: char)
    requires forall k :: 0 <= k < |parts| ==> c !in parts[k]
    ensures c in Join(parts, c) <==> |parts| >= 2
  {
    var n := |parts|;
    if n >= 2 {
      var j := Join(parts[..n - 1], c);
      assert (j + [c] + parts[n - 1])[|j|] == c;
    }
  }

  /** Joining the pieces of a split with the separator gives back the string
      without its trailing separators. */
  lemma JoinSplit(s: string, c: char)
    ensures Join(Split(s, c), c) == TrimTrailing(s, c)
  {
    if c in s {
      JoinDropTrailingEmpty(Pieces(s, c), c);
      JoinPieces(s, c);
    }
  }

  /** A split yields at least two strings exactly when a separator is left
      once the trailing ones are removed. */
  lemma SplitHasTwo(s: string, c: char)
    ensures |Split(s, c)| >= 2 <==> c in TrimTrailing(s, c)
  {
    var r := Split(s, c);
    var t := TrimTrailing(s, c);
    if c in s {
      JoinSplit(s, c);
      JoinHasSeparator(r, c);
    } else {
      assert forall k :: 0 <= k < |t| ==> t[k] == s[k];
    }
  }

  lemma {:induction false} PiecesOfConcat(x: string, c: char, y: string)
    ensures Pieces(x + [c] + y, c) == Pieces(x, c) + Pieces(y, c)
    decreases |y|
  {
    var z := x + [c] + y;
    if |y| == 0 {
      assert z[..|z| - 1] == x;
    } else {
      var y' := y[..|y| - 1];
      assert z[..|z| - 1] == x + [c] + y';
      PiecesOfConcat(x, c, y');
      ExtendConcat(Pieces(x, c), Pieces(y', c), y[|y| - 1], c);
    }
  }

  lemma {:induction false} PiecesWithout(s: string, c: char)
    requires c !in s
    ensures Pieces(s, c) == [s]
    decreases |s|
  {
    if |s| > 0 {
      PiecesWithout(s[..|s| - 1], c);
      assert s == s[..|s| - 1] + [s[|s| - 1]];
    }
  }

  // ---------------------------------------------------------------------
  // format

  function Spaces(n: nat): (r: string)
    ensures |r| == n && forall k :: 0 <= k < n ==> r[k] == ' '
  {
    seq(n, _ => ' ')
  }

  /** `String.format("%-" + width + "s", s)`: `s` left-justified, padded on
      the right with spaces to `width`; a longer `s` is kept whole. */
  function PadRight(s: string, width: nat): (r: string)
    ensures |r| == if |s| < width then width else |s|
    ensures r[..|s|] == s
    ensures forall k :: |s| <= k < |r| ==> r[k] == ' '
  {
    if |s| < width then s + Spaces(width - |s|) else s
  }

  /** Trimming the padding of a left-justified column gives back its text
      when that text does not end in a space. */
  lemma {:induction false} TrimPadRight(s: string, width: nat)
    requires |s| == 0 || s[|s| - 1] != ' '
    ensures TrimTrailing(PadRight(s, width), ' ') == s
  {
    var r := PadRight(s, width);
    var t := TrimTrailing(r, ' ');
    assert r[..|s|] == s;
  }
}
