/**
 * The overlay menu: its initial animation state, and the menu button's
 * toggle, which re-inserts the menu at index 0 of its parent's children and
 * scales it in, or scales it out and collapses it once that animation
 * completes.
 */
module Menu {
  import opened Views

  /** `children` with `v` taken out and put back in at index 0. */
  function MoveToFirst(children: seq<ViewId>, v: ViewId): (r: seq<ViewId>)
    requires v in children
    ensures |r| == |children| && r[0] == v
    ensures r[1..] == children[..IndexOf(children, v)] + children[IndexOf(children, v) + 1..]
  {
    [v] + RemoveFirst(children, v)
  }

  /** No child is lost or gained by the move. */
  lemma MoveToFirstIsPermutation(children: seq<ViewId>, v: ViewId)
    requires v in children
    ensures multiset(MoveToFirst(children, v)) == multiset(children)
  {
    var i := IndexOf(children, v);
    var before, after := children[..i], children[i + 1..];
    assert children == before + ([v] + after);
    assert MoveToFirst(children, v) == [v] + (before + after);
    calc {
      multiset(MoveToFirst(children, v));
      multiset([v]) + (multiset(before) + multiset(after));
      multiset(before) + (multiset([v]) + multiset(after));
      multiset(children);
    }
  }

  /** A menu that is already at index 0 stays where it is. */
  lemma MoveToFirstIdempotent(children: seq<ViewId>, v: ViewId)
    requires v in children
    ensures MoveToFirst(MoveToFirst(children, v), v) == MoveToFirst(children, v)
  {
  }

  /** A layout view: its children in order. */
  class Layout {
    var children: seq<ViewId>

    constructor (children: seq<ViewId>)
      ensures this.children == children
    {
      this.children := children;
    }

    /** `_removeView`: the child leaves the list. */
    method RemoveView(v: ViewId)
      modifies this
      ensures children == RemoveFirst(old(children), v)
    {
      children := RemoveFirst(children, v);
    }

    /** `_addView(v, index)`: the child is inserted at `index`. */
    method AddView(v: ViewId, index: nat)
      requires index <= |children|
      modifies this
      ensures children == old(children[..index]) + [v] + old(children[index..])
    {
      children := children[..index] + [v] + children[index..];
    }
  }

  /** The menu view: what the toggle reads and writes. */
  class MenuView {
    const id: ViewId
    const parent: Layout
    var visibility: Visibility
    var scaleX: int              // target of the latest scale animation: 0 or 1
    var scaleY: int
    var originX: int
    var originY: int
    var pendingCollapses: nat    // scale-down animations whose completion has not run

    /** The view as the page's markup creates it. */
    constructor (id: ViewId, parent: Layout, visibility: Visibility,
                 scaleX: int, scaleY: int, originX: int, originY: int)
      ensures this.id == id && this.parent == parent && this.visibility == visibility
      ensures this.scaleX == scaleX && this.scaleY == scaleY
      ensures this.originX == originX && this.originY == originY
      ensures pendingCollapses == 0
    {
      this.id := id;
      this.parent := parent;
      this.visibility := visibility;
      this.scaleX, this.scaleY := scaleX, scaleY;
      this.originX, this.originY := originX, originY;
      pendingCollapses := 0;
    }

    /** A scale-down animation completes: its continuation collapses the menu. */
    method CollapseAnimationCompleted()
      requires pendingCollapses > 0
      modifies this
      ensures visibility == Collapsed && pendingCollapses == old(pendingCollapses) - 1
      ensures scaleX == old(scaleX) && scaleY == old(scaleY)
      ensures originX == old(originX) && originY == old(originY)
    {
      visibility := Collapsed;
      pendingCollapses := pendingCollapses - 1;
    }
  }

  /** `menuLoaded`: scale animations grow from the top-right corner, starting at nothing. */
  method MenuLoaded(menu: MenuView)
    modifies menu
    ensures menu.originX == 1 && menu.originY == 0
    ensures menu.scaleX == 0 && menu.scaleY == 0
    ensures menu.visibility == old(menu.visibility)
    ensures menu.pendingCollapses == old(menu.pendingCollapses)
  {
    menu.originX := 1;
    menu.originY := 0;
    menu.scaleX := 0;
    menu.scaleY := 0;
  }

  /**
   * `menuButtonClicked`: hide a visible menu, or re-insert a hidden one at
   * index 0 of its parent's children (the source means this to render it
   * above the other views) and show it.
   */
  method MenuButtonClicked(menu: MenuView)
    requires menu.id in menu.parent.children
    modifies menu, menu.parent
    ensures menu.originX == old(menu.originX) && menu.originY == old(menu.originY)
    ensures old(menu.visibility) == Visible ==>
              && menu.scaleX == 0 && menu.scaleY == 0
              && menu.visibility == Visible
              && menu.pendingCollapses == old(menu.pendingCollapses) + 1
              && menu.parent.children == old(menu.parent.children)
    ensures old(menu.visibility) == Collapsed ==>
              && menu.scaleX == 1 && menu.scaleY == 1
              && menu.visibility == Visible
              && menu.pendingCollapses == old(menu.pendingCollapses)
              && menu.parent.children == MoveToFirst(old(menu.parent.children), menu.id)
    ensures menu.id in menu.parent.children
  {
    if menu.visibility == Visible {
      menu.scaleX, menu.scaleY := 0, 0;
      menu.pendingCollapses := menu.pendingCollapses + 1;
    } else {
      var parent := menu.parent;
      parent.RemoveView(menu.id);
      parent.AddView(menu.id, 0);
      menu.visibility := Visible;
      menu.scaleX, menu.scaleY := 1, 1;
    }
  }

  /**
   * Opening then closing a collapsed menu, once the scale-down completes:
   * collapsed again at scale 0, and at index 0 of its parent's children.
   */
  method ToggleTwice(menu: MenuView)
    requires menu.id in menu.parent.children
    requires menu.visibility == Collapsed && menu.pendingCollapses == 0
    modifies menu, menu.parent
    ensures menu.visibility == Collapsed && menu.scaleX == 0 && menu.scaleY == 0
    ensures menu.pendingCollapses == 0
    ensures menu.parent.children == MoveToFirst(old(menu.parent.children), menu.id)
    ensures menu.parent.children[0] == menu.id
  {
    MenuButtonClicked(menu);
    MenuButtonClicked(menu);
    menu.CollapseAnimationCompleted();
  }
}
