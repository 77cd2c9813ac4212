/**
 * Case mapping for the network names handled by the plugin. Swift's
 * `lowercased()` is modelled on ASCII letters; every other character is kept.
 */
module Text {

  predicate IsUpper(c: char) {
    'A' <= c <= 'Z'
  }

  function LowerChar(c: char): char {
    if IsUpper(c) then (c as int + 32) as char else c
  }

  /** `s.lowercased()`: the same length, no upper-case letter left, every other character untouched. */
  function Lower(s: string): (r: string)
    ensures |r| == |s|
    ensures forall i :: 0 <= i < |r| ==> !IsUpper(r[i])
    ensures forall i :: 0 <= i < |r| ==> !IsUpper(s[i]) ==> r[i] == s[i]
    ensures forall i :: 0 <= i < |r| ==> IsUpper(s[i]) ==> r[i] as int == s[i] as int + 32
  {
    seq(|s|, i requires 0 <= i < |s| => LowerChar(s[i]))
  }
}
