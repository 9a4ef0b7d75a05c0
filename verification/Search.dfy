/** The first element of a sequence with a property. */
module Search {

  /** Its position, or the length of the sequence if there is none. */
  function FirstAt<T>(s: seq<T>, p: T -> bool): (i: nat)
    ensures i <= |s| && (i < |s| ==> p(s[i]))
    ensures forall j :: 0 <= j < i ==> !p(s[j])
  {
    if s == [] then 0 else if p(s[0]) then 0 else 1 + FirstAt(s[1..], p)
  }
}
