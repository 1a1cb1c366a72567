/**
  Normalisation of recognised speech and keyword matching.

  The controllers lower-case and trim every recognised phrase
  (`textoReconocido.ToLower().Trim()`) and then ask whether it contains any
  keyword of a list as a substring (`ContienePalabra`, built on C#'s ordinal
  `string.Contains`). Lower-casing is modelled for ASCII letters only and
  trimming for ASCII white space.
 */
module Text {

  /** White space removed by `Trim` (ASCII subset of `char.IsWhiteSpace`). */
  predicate IsSpace(c: char) {
    c == ' ' || c == '\t' || c == '\n' || c == '\U{B}' || c == '\U{C}' || c == '\r'
  }

  predicate IsUpper(c: char) {
    'A' <= c <= 'Z'
  }

  function LowerChar(c: char): (r: char)
    ensures !IsUpper(r)
    ensures !IsUpper(c) ==> r == c
    ensures IsUpper(c) ==> 'a' <= r <= 'z' && r as int - 'a' as int == c as int - 'A' as int
  {
    if IsUpper(c) then (c as int + 32) as char else c
  }

  /** `ToLower` on ASCII letters. */
  function Lower(s: string): (r: string)
    ensures |r| == |s|
    ensures forall i :: 0 <= i < |r| ==> !IsUpper(r[i])
    ensures forall i :: 0 <= i < |s| && !IsUpper(s[i]) ==> r[i] == s[i]
    ensures forall i :: 0 <= i < |s| && IsUpper(s[i]) ==>
              'a' <= r[i] <= 'z' && r[i] as int - 'a' as int == s[i] as int - 'A' as int
  {
    seq(|s|, i requires 0 <= i < |s| => LowerChar(s[i]))
  }

  predicate NoUpper(s: string) {
    forall i :: 0 <= i < |s| ==> !IsUpper(s[i])
  }

  /** Drops leading white space. */
  function TrimStart(s: string): (r: string)
    ensures |r| <= |s| && r == s[|s| - |r|..]
    ensures forall i :: 0 <= i < |s| - |r| ==> IsSpace(s[i])
    ensures r == [] || !IsSpace(r[0])
    decreases |s|
  {
    if |s| > 0 && IsSpace(s[0]) then TrimStart(s[1..]) else s
  }

  /** Drops trailing white space. */
  function TrimEnd(s: string): (r: string)
    ensures |r| <= |s| && r == s[..|r|]
    ensures forall i :: |r| <= i < |s| ==> IsSpace(s[i])
    ensures r == [] || !IsSpace(r[|r| - 1])
    decreases |s|
  {
    if |s| > 0 && IsSpace(s[|s| - 1]) then TrimEnd(s[..|s| - 1]) else s
  }

  /** `r` occurs in `s` at `lo` and everything of `s` around it is white space. */
  ghost predicate SpaceAround(s: string, r: string, lo: int) {
    0 <= lo && lo + |r| <= |s| && r == s[lo..lo + |r|]
    && (forall i :: 0 <= i < lo ==> IsSpace(s[i]))
    && (forall i :: lo + |r| <= i < |s| ==> IsSpace(s[i]))
  }

  /** `r` is `s` with some white space removed from its two ends only. */
  ghost predicate StripsOnlySpace(s: string, r: string) {
    exists lo :: SpaceAround(s, r, lo)
  }

  /** `Trim`: the infix left after dropping white space at both ends; it
      has no white space at either end. */
  function Trim(s: string): (r: string)
    ensures StripsOnlySpace(s, r)
    ensures r == [] || (!IsSpace(r[0]) && !IsSpace(r[|r| - 1]))
  {
    TrimIsInfix(s);
    TrimEnd(TrimStart(s))
  }

  lemma TrimIsInfix(s: string)
    ensures StripsOnlySpace(s, TrimEnd(TrimStart(s)))
  {
    var t := TrimStart(s);
    var r := TrimEnd(t);
    var lo := |s| - |t|;
    assert r == t[..|r|];
    assert t == s[lo..];
    assert r == s[lo..lo + |r|];
    forall i | lo + |r| <= i < |s|
      ensures IsSpace(s[i])
    {
      assert s[i] == t[i - lo];
    }
    assert SpaceAround(s, r, lo);
  }

  /** What the controllers do to every recognised phrase before matching:
      the lower-cased phrase with only its surrounding white space removed. */
  function Normalize(texto: string): (r: string)
    ensures NoUpper(r)
    ensures StripsOnlySpace(Lower(texto), r)
    ensures r == [] || (!IsSpace(r[0]) && !IsSpace(r[|r| - 1]))
  {
    var l := Lower(texto);
    TrimKeepsNoUpper(l);
    Trim(l)
  }

  lemma TrimKeepsNoUpper(s: string)
    requires NoUpper(s)
    ensures NoUpper(TrimStart(s)) && NoUpper(TrimEnd(TrimStart(s)))
  {
    var t := TrimStart(s);
    NoUpperSlice(s, |s| - |t|, |s|);
    NoUpperSlice(t, 0, |TrimEnd(t)|);
  }

  lemma NoUpperSlice(s: string, lo: int, hi: int)
    requires NoUpper(s) && 0 <= lo <= hi <= |s|
    ensures NoUpper(s[lo..hi])
  {
    forall i | 0 <= i < hi - lo
      ensures !IsUpper(s[lo..hi][i])
    {
      assert s[lo..hi][i] == s[lo + i];
    }
  }

  lemma {:induction false} TrimStartOfTrimmed(s: string)
    requires s == [] || !IsSpace(s[0])
    ensures TrimStart(s) == s
  {
  }

  lemma {:induction false} TrimEndOfTrimmed(s: string)
    requires s == [] || !IsSpace(s[|s| - 1])
    ensures TrimEnd(s) == s
  {
  }

  lemma LowerOfLower(s: string)
    requires NoUpper(s)
    ensures Lower(s) == s
  {
  }

  /** A phrase already in lower case with no surrounding white space is
      left as it is. */
  lemma NormalizeFixes(texto: string)
    requires NoUpper(texto)
    requires texto == [] || (!IsSpace(texto[0]) && !IsSpace(texto[|texto| - 1]))
    ensures Normalize(texto) == texto
  {
    LowerOfLower(texto);
    TrimStartOfTrimmed(texto);
    TrimEndOfTrimmed(texto);
  }

  /** Normalising twice is normalising once. */
  lemma NormalizeIdempotent(texto: string)
    ensures Normalize(Normalize(texto)) == Normalize(texto)
  {
    NormalizeFixes(Normalize(texto));
  }

  /** A phrase made only of white space normalises to the empty string. */
  lemma {:induction false} BlankNormalizesToEmpty(texto: string)
    requires forall i :: 0 <= i < |texto| ==> IsSpace(texto[i])
    ensures Normalize(texto) == []
  {
    var l := Lower(texto);
    assert forall i :: 0 <= i < |l| ==> IsSpace(l[i]);
    TrimStartBlank(l);
  }

  lemma {:induction false} TrimStartBlank(s: string)
    requires forall i :: 0 <= i < |s| ==> IsSpace(s[i])
    ensures TrimStart(s) == []
    decreases |s|
  {
    if |s| > 0 {
      TrimStartBlank(s[1..]);
    }
  }

  // ---------------------------------------------------------------------
  // Substring search
  // ---------------------------------------------------------------------

  /** `palabra` occurs in `texto` starting at index `i`. */
  ghost predicate OccursAt(palabra: string, texto: string, i: int) {
    0 <= i && i + |palabra| <= |texto| && texto[i..i + |palabra|] == palabra
  }

  /** The meaning of C#'s ordinal `texto.Contains(palabra)`. */
  ghost predicate IsSubstring(palabra: string, texto: string) {
    exists i :: OccursAt(palabra, texto, i)
  }

  predicate StartsWith(texto: string, palabra: string) {
    |palabra| <= |texto| && texto[..|palabra|] == palabra
  }

  lemma ShiftOccurrence(palabra: string, texto: string)
    requires |texto| > 0
    ensures forall i :: 0 <= i ==> (OccursAt(palabra, texto[1..], i) <==> OccursAt(palabra, texto, i + 1))
  {
    forall i | 0 <= i
      ensures OccursAt(palabra, texto[1..], i) <==> OccursAt(palabra, texto, i + 1)
    {
      if 0 <= i && i + |palabra| <= |texto| - 1 {
        assert texto[1..][i..i + |palabra|] == texto[i + 1..i + 1 + |palabra|];
      }
    }
  }

  /** Ordinal substring test, scanning start positions left to right. */
  function Contains(texto: string, palabra: string): (r: bool)
    ensures r <==> IsSubstring(palabra, texto)
    decreases |texto|
  {
    if StartsWith(texto, palabra) then
      assert OccursAt(palabra, texto, 0);
      true
    else if |texto| == 0 then
      assert forall i :: !OccursAt(palabra, texto, i);
      false
    else
      ShiftOccurrence(palabra, texto);
      assert !OccursAt(palabra, texto, 0);
      assert forall i :: OccursAt(palabra, texto, i) ==> OccursAt(palabra, texto[1..], i - 1);
      Contains(texto[1..], palabra)
  }

  /** `ContienePalabra`: some keyword of the list occurs in the text;
      false for an empty list. The source loops over the list and
      returns at the first hit. */
  function ContienePalabra(texto: string, palabrasClave: seq<string>): (r: bool)
    ensures r <==> exists j :: 0 <= j < |palabrasClave| && IsSubstring(palabrasClave[j], texto)
    ensures |palabrasClave| == 0 ==> !r
    decreases |palabrasClave|
  {
    if |palabrasClave| == 0 then false
    else if Contains(texto, palabrasClave[0]) then true
    else
      var r := ContienePalabra(texto, palabrasClave[1..]);
      assert forall j :: 1 <= j < |palabrasClave| ==> palabrasClave[j] == palabrasClave[1..][j - 1];
      r
  }

  /** A keyword list matches a phrase that is one of its keywords. */
  lemma KeywordMatchesItself(palabrasClave: seq<string>, j: nat)
    requires j < |palabrasClave|
    ensures ContienePalabra(palabrasClave[j], palabrasClave)
  {
    assert OccursAt(palabrasClave[j], palabrasClave[j], 0);
  }

  /** Substring is transitive. */
  lemma SubstringTransitive(a: string, b: string, c: string)
    requires IsSubstring(a, b) && IsSubstring(b, c)
    ensures IsSubstring(a, c)
  {
    var i :| OccursAt(a, b, i);
    var j :| OccursAt(b, c, j);
    forall k | 0 <= k < |a|
      ensures c[j + i + k] == a[k]
    {
      assert a[k] == b[i..i + |a|][k] == b[i + k];
      assert b[i + k] == c[j..j + |b|][i + k];
    }
    assert c[j + i..j + i + |a|] == a;
    assert OccursAt(a, c, j + i);
  }

  /** The empty phrase contains no non-empty keyword. */
  lemma EmptyMatchesNoKeyword(palabrasClave: seq<string>)
    requires forall j :: 0 <= j < |palabrasClave| ==> palabrasClave[j] != []
    ensures !ContienePalabra([], palabrasClave)
  {
    forall j, i | 0 <= j < |palabrasClave|
      ensures !OccursAt(palabrasClave[j], [], i)
    {
    }
  }
}
