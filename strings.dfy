/** Text helpers the calculator needs from JavaScript's string library. */
module Strings {

  /** Position of the first `c` in `s`, or `|s|` when `s` has none. */
  function IndexOf(s: string, c: char): (k: nat)
    ensures k <= |s|
    ensures forall i :: 0 <= i < k ==> s[i] != c
    ensures k < |s| ==> s[k] == c
  {
    if s == [] then 0
    else if s[0] == c then 0
    else 1 + IndexOf(s[1..], c)
  }

  /** `s.split(sep)[0]`: everything before the first separator, or all of `s`. */
  function FirstField(s: string, sep: char): (r: string)
    ensures r <= s && sep !in r
    ensures |r| == |s| || s[|r|] == sep
  {
    s[..IndexOf(s, sep)]
  }

  /** Splitting `t + sep + u` at its first separator gives back `t` when `t` has none. */
  lemma FirstFieldOfJoin(t: string, sep: char, u: string)
    requires sep !in t
    ensures FirstField(t + [sep] + u, sep) == t
  {
    var s := t + [sep] + u;
    assert s[|t|] == sep;
    assert forall i :: 0 <= i < |t| ==> s[i] == t[i];
  }
}
