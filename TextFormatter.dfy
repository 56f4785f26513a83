/** `TextFormatter`: turning PokeFlex resource names ("mr-mime",
    "generation-iv") into display text, and splitting URLs. */
module TextFormatter {
  import opened Wrappers
  import opened JavaStrings
  import opened WordUtils

  /** `flexFormToProper`: every dash becomes a space, then each word is
      capitalized. A character is upper-cased exactly when it starts the
      string or follows whitespace or a dash in the input. */
  function FlexFormToProper(s: string): (r: string)
    ensures |r| == |s|
    ensures '-' !in r
    ensures forall i :: 0 <= i < |s| ==>
      var plain := if s[i] == '-' then ' ' else s[i];
      r[i] == if i == 0 || IsWhitespace(s[i - 1]) || s[i - 1] == '-' then ToUpper(plain) else plain
  {
    var noDashes := ReplaceChar(s, '-', ' ');
    assert '-' !in noDashes;
    forall d | ToUpper(d) == '-' ensures d == '-' { ToUpperFacts(d); }
    CapitalizeKeepsChar(noDashes, '-');
    Capitalize(noDashes)
  }

  /** Formatting an already formatted name changes nothing. */
  lemma FlexFormToProperIdempotent(s: string)
    ensures FlexFormToProper(FlexFormToProper(s)) == FlexFormToProper(s)
  {
    var once := FlexFormToProper(s);
    ReplaceCharAbsent(once, '-', ' ');
    CapitalizeIdempotent(ReplaceChar(s, '-', ' '));
  }

  /** Characters that are neither letters, dashes nor whitespace pass through
      unchanged, so a markup suffix such as "__**" may be formatted along with
      the name or appended afterwards. */
  lemma FlexFormToProperSuffix(s: string, suffix: string)
    requires forall k :: 0 <= k < |suffix| ==>
      suffix[k] != '-' && !IsWhitespace(suffix[k]) && ToUpper(suffix[k]) == suffix[k]
    ensures FlexFormToProper(s + suffix) == FlexFormToProper(s) + suffix
  {
    assert ReplaceChar(s + suffix, '-', ' ') == ReplaceChar(s, '-', ' ') + suffix;
    CapitalizeAppend(ReplaceChar(s, '-', ' '), suffix);
  }

  /** `formatGeneration`: split at dashes, then the first piece capitalized,
      a space and the second piece in upper case; the later pieces are
      dropped. With fewer than two pieces Java throws
      `ArrayIndexOutOfBoundsException`, modelled as `None`; that happens
      exactly when no dash is left once the trailing dashes are removed. */
  function FormatGeneration(s: string): (r: Option<string>)
    ensures r.Some? <==> '-' in TrimTrailing(s, '-')
  {
    SplitHasTwo(s, '-');
    var words := Split(s, '-');
    if |words| < 2 then None
    else Some(Capitalize(words[0]) + " " + UpperCase(words[1]))
  }

  /** "generation-iv" reads "Generation IV". */
  lemma FormatGenerationOfPair(a: string, b: string)
    requires '-' !in a && '-' !in b && b != []
    ensures FormatGeneration(a + "-" + b) == Some(Capitalize(a) + " " + UpperCase(b))
  {
    var s := a + "-" + b;
    assert s == a + ['-'] + b;
    assert s[|a|] == '-';
    PiecesOfConcat(a, '-', b);
    PiecesWithout(a, '-');
    PiecesWithout(b, '-');
    assert Pieces(s, '-') == [a, b];
  }

  /** Whatever follows the second piece is ignored, also when the second
      piece is empty ("a--c" reads "A "), as long as some piece is left. */
  lemma FormatGenerationIgnoresRest(a: string, b: string, rest: string)
    requires '-' !in a && '-' !in b
    requires b != [] || TrimTrailing(rest, '-') != []
    ensures FormatGeneration(a + "-" + b + "-" + rest) == Some(Capitalize(a) + " " + UpperCase(b))
  {
    var s := a + "-" + b + "-" + rest;
    assert s == a + ['-'] + (b + ['-'] + rest);
    assert s[|a|] == '-';
    PiecesOfConcat(a, '-', b + ['-'] + rest);
    PiecesOfConcat(b, '-', rest);
    PiecesWithout(a, '-');
    PiecesWithout(b, '-');
    var p := Pieces(s, '-');
    assert p[0] == a && p[1] == b;
    var w := Split(s, '-');
    if b == [] {
      var front := a + "-" + b + "-";
      assert s == front + rest;
      TrimTrailingConcat(front, rest, '-');
      assert TrimTrailing(s, '-')[|a|] == '-';
      SplitHasTwo(s, '-');
    }
    assert |w| >= 2;
    assert w[0] == a && w[1] == b;
  }

  /** `getURLComponents`: `url.split("/")`. The empty URL gives one empty
      component. No component holds a slash, and joining the components
      with slashes gives back the URL without its trailing slashes. */
  function GetURLComponents(url: string): (r: seq<string>)
    ensures url == [] ==> r == [[]]
    ensures forall k :: 0 <= k < |r| ==> '/' !in r[k]
    ensures Join(r, '/') == TrimTrailing(url, '/')
  {
    JoinSplit(url, '/');
    Split(url, '/')
  }

  /** The last component is empty only when the whole URL is. */
  lemma GetURLComponentsLastNonEmpty(url: string)
    ensures var r := GetURLComponents(url);
      |r| > 0 && r[|r| - 1] == [] ==> url == []
  {
  }
}
