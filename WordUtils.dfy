/** `WordUtils.capitalize(String)` of Apache Commons Lang 2: the default
    delimiters are the whitespace characters; the first character and every
    character after a delimiter is turned to title case (ASCII upper case
    here), everything else is copied. */
module WordUtils {
  import opened JavaStrings

  /** Position `i` starts a word: it is the first one or follows whitespace. */
  predicate WordStart(s: string, i: int)
    requires 0 <= i < |s|
  {
    i == 0 || IsWhitespace(s[i - 1])
  }

  /** The library's loop over the characters, with its `capitalizeNext` flag
      (true at the start). */
  function CapitalizeFrom(s: string, capitalizeNext: bool): (r: string)
    ensures |r| == |s|
    ensures forall i :: 0 <= i < |s| ==>
      r[i] == if (i == 0 && capitalizeNext) || (i > 0 && IsWhitespace(s[i - 1])) then ToUpper(s[i]) else s[i]
  {
    if s == [] then []
    else if IsWhitespace(s[0]) then
      var t := CapitalizeFrom(s[1..], true);
      assert ToUpper(s[0]) == s[0];
      assert forall i :: 1 <= i < |s| ==> s[1..][i - 1] == s[i];
      [s[0]] + t
    else if capitalizeNext then [ToUpper(s[0])] + CapitalizeFrom(s[1..], false)
    else [s[0]] + CapitalizeFrom(s[1..], false)
  }

  /** `WordUtils.capitalize(s)`: same length; a character that starts a
      word is upper-cased, every other one is kept. */
  function Capitalize(s: string): (r: string)
    ensures |r| == |s|
    ensures forall i :: 0 <= i < |s| ==> r[i] == if WordStart(s, i) then ToUpper(s[i]) else s[i]
  {
    CapitalizeFrom(s, true)
  }

  /** Capitalizing keeps whitespace where it was, so it changes nothing the
      second time. */
  lemma CapitalizeIdempotent(s: string)
    ensures Capitalize(Capitalize(s)) == Capitalize(s)
  {
    var once := Capitalize(s);
    var twice := Capitalize(once);
    forall i | 0 <= i < |s|
      ensures twice[i] == once[i]
    {
      ToUpperFacts(s[i]);
      if i > 0 {
        ToUpperFacts(s[i - 1]);
      }
    }
  }

  /** Appending characters that are not whitespace and that upper-casing
      leaves unchanged (no lower-case ASCII letters) commutes with
      capitalizing. */
  lemma CapitalizeAppend(s: string, suffix: string)
    requires forall k :: 0 <= k < |suffix| ==> !IsWhitespace(suffix[k]) && ToUpper(suffix[k]) == suffix[k]
    ensures Capitalize(s + suffix) == Capitalize(s) + suffix
  {
    var x := s + suffix;
    var whole := Capitalize(x);
    var part := Capitalize(s);
    forall i | 0 <= i < |x|
      ensures whole[i] == (part + suffix)[i]
    {
      if i < |s| {
        assert x[i] == s[i];
        if i > 0 { assert x[i - 1] == s[i - 1]; }
      } else {
        assert x[i] == suffix[i - |s|];
      }
    }
  }

  /** Capitalizing introduces no character that was not there or is not the
      upper case of a character that was there. */
  lemma CapitalizeKeepsChar(s: string, c: char)
    requires c !in s && ToUpper(c) == c
    requires forall d :: ToUpper(d) == c ==> d == c
    ensures c !in Capitalize(s)
  {
    var r := Capitalize(s);
    forall i | 0 <= i < |r| ensures r[i] != c {
      assert s[i] != c;
    }
  }
}
