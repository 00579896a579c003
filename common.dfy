/** Building blocks shared by every component: an optional value (the
    TypeScript source's `null`/`undefined`) and list reversal. */
module Common {

  /** A value that may be absent. */
  datatype Option<T> = None | Some(value: T)

  /** The list `Array.prototype.reverse` leaves behind, as a value. */
  function Reverse<T>(s: seq<T>): (r: seq<T>)
    ensures |r| == |s|
  {
    if s == [] then [] else Reverse(s[1..]) + [s[0]]
  }

  /** Element k of the reversed list is element |s|-1-k of the original. */
  lemma {:induction false} ReverseAt<T>(s: seq<T>, k: nat)
    requires k < |s|
    ensures Reverse(s)[k] == s[|s| - 1 - k]
  {
    if k < |s| - 1 {
      ReverseAt(s[1..], k);
    }
  }
}
