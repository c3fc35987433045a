// Linear search, as every lookup of the source does it.
module Lookup {
  // The first element that passes a test, or the length when none does.
  function First<T>(s: seq<T>, test: T -> bool): (i: nat)
    ensures i <= |s|
    ensures i < |s| ==> test(s[i])
    ensures forall j :: 0 <= j < i ==> !test(s[j])
  {
    if s == [] || test(s[0]) then 0 else 1 + First(s[1..], test)
  }
}
