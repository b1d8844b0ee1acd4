/**
 * What the page's views share: a view's visibility, and the operations on a
 * parent's ordered list of children that the page relies on.
 */
module Views {

  /**
   * The visibility values the page assigns: 'visible', and 'collapse' for the
   * action-bar items or "collapsed" for the menu, both modelled as `Collapsed`.
   */
  datatype Visibility = Visible | Collapsed

  /** Views are identified by an opaque id; a layout keeps its children in a sequence. */
  type ViewId = nat

  /** `n` views, all with visibility `v`. */
  function AllSet(n: nat, v: Visibility): (r: seq<Visibility>)
    ensures |r| == n
    ensures forall i :: 0 <= i < n ==> r[i] == v
  {
    seq(n, _ => v)
  }

  /** Position of the first occurrence of `x` in `s`. */
  function IndexOf<T(==)>(s: seq<T>, x: T): (i: nat)
    requires x in s
    ensures i < |s| && s[i] == x
    ensures x !in s[..i]
  {
    if s[0] == x then 0 else 1 + IndexOf(s[1..], x)
  }

  /** `s` with its first occurrence of `x` taken out (a view is removed from its parent once). */
  function RemoveFirst<T(==)>(s: seq<T>, x: T): seq<T> {
    if x in s then s[..IndexOf(s, x)] + s[IndexOf(s, x) + 1..] else s
  }
}
