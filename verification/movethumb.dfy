/**
 * The drag handle of a circuit item (QlayVisual/MoveThumb.cs): dragging moves
 * the item by the pointer's change; releasing it either deletes the item,
 * when its centre lies outside the canvas, or asks it to snap to a qubit line.
 * Either way the canvas' measurement labels are cleared.
 */
module MoveThumb {
  import opened Canvas

  /** The item moved by (dh, dv): a NaN position stays NaN, a number moves exactly. */
  function Moved(e: Element, dh: real, dv: real): (m: Element)
    ensures m.kind == e.kind && m.zIndex == e.zIndex
    ensures m.left.Num? <==> e.left.Num?
    ensures m.top.Num? <==> e.top.Num?
    ensures m.left.Num? ==> m.left.v - e.left.v == dh
    ensures m.top.Num? ==> m.top.v - e.top.v == dv
  {
    e.(left := e.left.Plus(dh), top := e.top.Plus(dv))
  }

  /** `pos + extent / 2.0`, NaN if either is NaN. */
  function Centre(pos: Coord, extent: Coord): (c: Coord)
    ensures c.Num? <==> pos.Num? && extent.Num?
  {
    if pos.Num? && extent.Num? then Num(pos.v + extent.v / 2.0) else NaN
  }

  /** The two things a completed drag can do with the item. */
  datatype Decision = Delete | Snap

  /** `left < 0 || left > width || top < 0 || top > height` on the centre, with IEEE comparisons. */
  function Decide(e: Element, width: real, height: real): Decision
    requires e.kind.Item?
  {
    var x := Centre(e.left, e.kind.width);
    var y := Centre(e.top, e.kind.height);
    if x.Below(0.0) || x.Above(width) || y.Below(0.0) || y.Above(height) then Delete else Snap
  }

  /**
   * An item with a numeric position and size is deleted exactly when its
   * centre is not inside the closed rectangle [0, width] x [0, height].
   */
  lemma DeleteIffCentreOutside(e: Element, width: real, height: real)
    requires e.kind.Item? && e.left.Num? && e.top.Num? && e.kind.width.Num? && e.kind.height.Num?
    ensures Decide(e, width, height) == Delete <==>
      !(0.0 <= e.left.v + e.kind.width.v / 2.0 <= width && 0.0 <= e.top.v + e.kind.height.v / 2.0 <= height)
  {
  }

  /** A centre anywhere on the canvas edge is kept and snapped: the bounds are inclusive. */
  lemma EdgeIsKept(e: Element, width: real, height: real)
    requires e.kind.Item? && e.left.Num? && e.top.Num? && e.kind.width.Num? && e.kind.height.Num?
    requires 0.0 <= e.left.v + e.kind.width.v / 2.0 <= width
    requires 0.0 <= e.top.v + e.kind.height.v / 2.0 <= height
    requires e.left.v + e.kind.width.v / 2.0 in {0.0, width} || e.top.v + e.kind.height.v / 2.0 in {0.0, height}
    ensures Decide(e, width, height) == Snap
  {
  }

  /** An item whose centre is NaN in both directions is never deleted, since every comparison with NaN is false. */
  lemma NaNIsKept(e: Element, width: real, height: real)
    requires e.kind.Item?
    requires e.left.NaN? || e.kind.width.NaN?
    requires e.top.NaN? || e.kind.height.NaN?
    ensures Decide(e, width, height) == Snap
  {
  }

  /** `MoveThumb_DragDelta`: move the item at index k by the drag change; a child that is not an item is left alone. */
  method DragDelta(cc: CircuitCanvas, k: nat, dh: real, dv: real)
    requires k < |cc.children|
    modifies cc
    ensures cc.children == if old(cc.children)[k].kind.Item?
      then old(cc.children)[k := Moved(old(cc.children)[k], dh, dv)]
      else old(cc.children)
    ensures cc.width == old(cc.width) && cc.requests == old(cc.requests)
  {
    var ci := cc.children[k];
    if ci.kind.Item? {
      var left := ci.left;
      var top := ci.top;
      cc.children := cc.children[k := ci.(left := left.Plus(dh))];
      cc.children := cc.children[k := cc.children[k].(top := top.Plus(dv))];
    }
  }

  /**
   * `MoveThumb_DragCompleted` for the item at index k of its parent canvas,
   * whose laid-out size is (actualWidth, actualHeight): delete the item or ask
   * it to snap, never both, then ask the canvas to clear its measurement labels.
   */
  method DragCompleted(cc: CircuitCanvas, k: nat, actualWidth: real, actualHeight: real)
    requires k < |cc.children|
    modifies cc
    ensures cc.width == old(cc.width)
    ensures !old(cc.children)[k].kind.Item? ==> cc.children == old(cc.children) && cc.requests == old(cc.requests)
    ensures old(cc.children)[k].kind.Item? && Decide(old(cc.children)[k], actualWidth, actualHeight) == Delete ==>
      cc.children == old(cc.children)[..k] + old(cc.children)[k + 1..] &&
      cc.requests == old(cc.requests) + [LabelsCleared]
    ensures old(cc.children)[k].kind.Item? && Decide(old(cc.children)[k], actualWidth, actualHeight) == Snap ==>
      cc.children == old(cc.children) &&
      cc.requests == old(cc.requests) + [SnapRequested(old(cc.children)[k]), LabelsCleared]
  {
    var ci := cc.children[k];
    if ci.kind.Item? {
      var left := Centre(ci.left, ci.kind.width);
      var top := Centre(ci.top, ci.kind.height);
      if left.Below(0.0) || left.Above(actualWidth) || top.Below(0.0) || top.Above(actualHeight) {
        // ci.DeleteFromCanvas()
        cc.children := cc.children[..k] + cc.children[k + 1..];
      } else {
        cc.requests := cc.requests + [SnapRequested(ci)];
      }
      cc.requests := cc.requests + [LabelsCleared];
    }
  }
}
