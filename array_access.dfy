/** The bounds-checked array helpers of Extension/File.swift: `isNotEmpty`
    and `subscript(safe:)`. Swift arrays are modelled as sequences. */
module ArrayAccess {
  import opened Wrappers

  /** `Array.isNotEmpty`. */
  function IsNotEmpty<T>(a: seq<T>): (r: bool)
    ensures r <==> |a| >= 1
    ensures !r <==> a == []
  {
    !(|a| == 0)
  }

  /** `Array.subscript(safe:)`: the element at `index` when the index is in
      range, and nil otherwise; it never traps. */
  function SafeGet<T>(a: seq<T>, index: int): (r: Option<T>)
    ensures a == [] ==> r == None
    ensures r.Some? <==> 0 <= index < |a|
    ensures r.Some? ==> r.value == a[index]
  {
    if !IsNotEmpty(a) || index < 0 || index >= |a| then None else Some(a[index])
  }

  /** Appending keeps every safe lookup of the old elements and makes the
      new element reachable at the old length. */
  lemma SafeGetAppend<T>(a: seq<T>, x: T, index: int)
    ensures SafeGet(a + [x], |a|) == Some(x)
    ensures SafeGet(a, index).Some? ==> SafeGet(a + [x], index) == SafeGet(a, index)
  {
  }
}
