/** A JavaScript array that callers share by reference, with the in-place
    `splice` the notification step uses. */
module JsArrays {

  /** The start position `splice` actually uses (ECMA-262, 23.1.3.31):
      a negative start counts from the end, and both ends are clamped. */
  function SpliceStart(len: nat, start: int): (s: nat)
    ensures s <= len
    ensures 0 <= start <= len ==> s == start
    ensures start < 0 && -start <= len ==> s == len + start
  {
    if start < 0 then (if len + start < 0 then 0 else len + start)
    else if start > len then len
    else start
  }

  /** The number of elements `splice` actually removes: the requested count
      clamped to what lies between the start and the end. */
  function SpliceDeleteCount(len: nat, start: nat, deleteCount: int): (d: nat)
    requires start <= len
    ensures start + d <= len
    ensures deleteCount <= 0 ==> d == 0
    ensures 0 <= deleteCount <= len - start ==> d == deleteCount
    ensures deleteCount >= len - start ==> d == len - start
  {
    if deleteCount < 0 then 0
    else if deleteCount > len - start then len - start
    else deleteCount
  }

  /** How many leading elements `splice(0, n)` removes: `n` clamped to
      `[0, len]`. */
  lemma SpliceFrontCount(len: nat, n: int)
    ensures SpliceStart(len, 0) == 0
    ensures n >= 0 ==> SpliceDeleteCount(len, 0, n) == if n < len then n else len
    ensures n < 0 ==> SpliceDeleteCount(len, 0, n) == 0
  {
  }

  class JsArray<T> {
    var items: seq<T>

    constructor(init: seq<T>)
      ensures items == init
    {
      items := init;
    }

    /** `a.splice(start, deleteCount)`: removes the elements and returns
        them; what was before and after them closes up. */
    method Splice(start: int, deleteCount: int) returns (removed: seq<T>)
      modifies this
      ensures var s := SpliceStart(|old(items)|, start);
              var d := SpliceDeleteCount(|old(items)|, s, deleteCount);
              && removed == old(items)[s..s + d]
              && items == old(items)[..s] + old(items)[s + d..]
    {
      var s := SpliceStart(|items|, start);
      var d := SpliceDeleteCount(|items|, s, deleteCount);
      removed := items[s..s + d];
      items := items[..s] + items[s + d..];
    }
  }
}
