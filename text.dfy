/**
 * The string clean-up the two classes apply to names read from the data
 * provider: Python's str.title() and str.capitalize(), restricted to ASCII
 * letters, and the replacement of '-' by ' '.
 */
module Text {

  predicate IsUpper(c: char)
  {
    'A' <= c <= 'Z'
  }

  predicate IsLower(c: char)
  {
    'a' <= c <= 'z'
  }

  predicate IsCased(c: char)
  {
    IsUpper(c) || IsLower(c)
  }

  function ToUpper(c: char): (r: char)
    ensures !IsLower(r)
    ensures IsCased(r) <==> IsCased(c)
    ensures !IsLower(c) ==> r == c
    ensures ToLower(r) == ToLower(c)
  {
    if IsLower(c) then (c as int - 32) as char else c
  }

  function ToLower(c: char): (r: char)
    ensures !IsUpper(r)
    ensures IsCased(r) <==> IsCased(c)
    ensures !IsUpper(c) ==> r == c
  {
    if IsUpper(c) then (c as int + 32) as char else c
  }

  function LowerAll(s: string): (r: string)
    ensures |r| == |s|
    ensures forall i :: 0 <= i < |s| ==> r[i] == ToLower(s[i])
  {
    if s == [] then [] else [ToLower(s[0])] + LowerAll(s[1..])
  }

  /** str.capitalize(): the first character upper case, all others lower case. */
  function Capitalize(s: string): (r: string)
    ensures |r| == |s|
    ensures |s| > 0 ==> !IsLower(r[0]) && (IsCased(r[0]) <==> IsCased(s[0]))
    ensures forall i :: 0 < i < |s| ==> !IsUpper(r[i]) && (IsCased(r[i]) <==> IsCased(s[i]))
    ensures forall i :: 0 <= i < |s| ==> ToLower(r[i]) == ToLower(s[i])
    ensures forall i :: 0 <= i < |s| && !IsCased(s[i]) ==> r[i] == s[i]
  {
    if s == [] then [] else [ToUpper(s[0])] + LowerAll(s[1..])
  }

  /**
   * str.title() from a position whose left neighbour is (`afterCased`) or is
   * not a cased letter: a cased letter becomes upper case when it starts a
   * run of letters and lower case inside one.
   */
  function TitleFrom(s: string, afterCased: bool): (r: string)
    ensures |r| == |s|
    ensures forall i :: 0 <= i < |s| ==> (IsCased(r[i]) <==> IsCased(s[i]))
    ensures forall i :: 0 <= i < |s| && !IsCased(s[i]) ==> r[i] == s[i]
    ensures forall i :: 0 <= i < |s| ==> ToLower(r[i]) == ToLower(s[i])
    ensures |s| > 0 && !afterCased ==> !IsLower(r[0])
    ensures |s| > 0 && afterCased ==> !IsUpper(r[0])
    ensures forall i :: 0 < i < |s| && IsCased(s[i - 1]) ==> !IsUpper(r[i])
    ensures forall i :: 0 < i < |s| && !IsCased(s[i - 1]) ==> !IsLower(r[i])
  {
    if s == [] then []
    else
      var c := if !IsCased(s[0]) then s[0] else if afterCased then ToLower(s[0]) else ToUpper(s[0]);
      [c] + TitleFrom(s[1..], IsCased(s[0]))
  }

  /** str.title(): each run of letters upper case at its start, lower case after it; letters and other characters kept. */
  function Title(s: string): (r: string)
    ensures |r| == |s|
    ensures forall i :: 0 <= i < |s| ==> ToLower(r[i]) == ToLower(s[i])
    ensures forall i :: 0 <= i < |s| && !IsCased(s[i]) ==> r[i] == s[i]
    ensures |s| > 0 ==> !IsLower(r[0])
    ensures forall i :: 0 < i < |s| && IsCased(s[i - 1]) ==> !IsUpper(r[i])
    ensures forall i :: 0 < i < |s| && !IsCased(s[i - 1]) ==> !IsLower(r[i])
  {
    TitleFrom(s, false)
  }

  function HyphensToSpaces(s: string): (r: string)
    ensures |r| == |s|
    ensures forall i :: 0 <= i < |s| ==> r[i] == (if s[i] == '-' then ' ' else s[i])
  {
    seq(|s|, i requires 0 <= i < |s| => if s[i] == '-' then ' ' else s[i])
  }

  /** name.replace('-', ' ').title(): how a creature's display name is formed. */
  function DisplayName(s: string): (r: string)
    ensures |r| == |s|
    ensures forall i :: 0 <= i < |r| ==> r[i] != '-'
    ensures forall i :: 0 <= i < |s| && s[i] == '-' ==> r[i] == ' '
    ensures forall i :: 0 <= i < |s| && s[i] != '-' ==> ToLower(r[i]) == ToLower(s[i])
    ensures forall i :: 0 <= i < |s| && s[i] != '-' && !IsCased(s[i]) ==> r[i] == s[i]
    ensures |s| > 0 ==> !IsLower(r[0])
    ensures forall i :: 0 < i < |s| && IsCased(s[i - 1]) ==> !IsUpper(r[i])
    ensures forall i :: 0 < i < |s| && !IsCased(s[i - 1]) ==> !IsLower(r[i])
  {
    Title(HyphensToSpaces(s))
  }
}
