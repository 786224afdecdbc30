/** The two string builtins the band models use: `sep.join(parts)` and `str.lower()`. */
module Strings {

  /** `sep.join(parts)`: the parts in order with one `sep` between neighbours. */
  function Join(parts: seq<string>, sep: string): (r: string)
    ensures parts == [] ==> r == ""
    ensures |parts| == 1 ==> r == parts[0]
    ensures parts != [] ==> |parts[0]| <= |r| && r[..|parts[0]|] == parts[0]
    ensures parts != [] ==> |parts[|parts| - 1]| <= |r| && r[|r| - |parts[|parts| - 1]|..] == parts[|parts| - 1]
  {
    if parts == [] then ""
    else if |parts| == 1 then parts[0]
    else parts[0] + sep + Join(parts[1..], sep)
  }

  /** The last character of a non-empty string. */
  function LastChar(s: string): char
    requires s != []
  {
    s[|s| - 1]
  }

  /**
   * Appending one more part adds exactly one separator before it; with the empty and
   * one-part cases this fixes every part and every separator of the join, in order.
   */
  lemma {:induction false} JoinSnoc(parts: seq<string>, p: string, sep: string)
    requires parts != []
    ensures Join(parts + [p], sep) == Join(parts, sep) + sep + p
  {
    var longer := parts + [p];
    if |parts| == 1 {
      assert longer[1..] == [p];
      assert Join(longer, sep) == parts[0] + sep + Join([p], sep);
    } else {
      var rest := parts[1..];
      assert longer[0] == parts[0] && longer[1..] == rest + [p];
      calc {
        Join(longer, sep);
        parts[0] + sep + Join(rest + [p], sep);
        { JoinSnoc(rest, p, sep); }
        parts[0] + sep + (Join(rest, sep) + sep + p);
        (parts[0] + sep + Join(rest, sep)) + sep + p;
      }
    }
  }

  predicate IsUpper(c: char) {
    'A' <= c <= 'Z'
  }

  /** ASCII lower-casing of one character; every other character is kept. */
  function LowerChar(c: char): (d: char)
    ensures !IsUpper(d)
    ensures IsUpper(c) ==> d as int == c as int + ('a' as int - 'A' as int)
    ensures !IsUpper(c) ==> d == c
  {
    if IsUpper(c) then (c as int + ('a' as int - 'A' as int)) as char else c
  }

  /** `s.lower()` on ASCII text: the same length, each character lower-cased. */
  function Lower(s: string): (r: string)
    ensures |r| == |s|
    ensures forall i :: 0 <= i < |s| ==> r[i] == LowerChar(s[i])
  {
    if s == [] then [] else [LowerChar(s[0])] + Lower(s[1..])
  }
}
