/** A three.js group: an ordered list of children and a rotation. */
module Scene {

  datatype Vec3 = Vec3(x: real, y: real, z: real)

  function Add(a: Vec3, b: Vec3): Vec3 {
    Vec3(a.x + b.x, a.y + b.y, a.z + b.z)
  }

  function Neg(a: Vec3): Vec3 {
    Vec3(-a.x, -a.y, -a.z)
  }

  class Group<T> {
    var children: seq<T>
    var rotation: Vec3

    constructor ()
      ensures children == [] && rotation == Vec3(0.0, 0.0, 0.0)
    {
      children := [];
      rotation := Vec3(0.0, 0.0, 0.0);
    }
  }
}

/**
 * elementInViewport, shared word for word by both canvases: the element's
 * page position is its own offset plus the offsets of its offsetParent
 * chain, and it is visible when its box strictly overlaps the window's on
 * both axes.
 */
module Viewport {

  /** offsetTop and offsetLeft of one element of the offsetParent chain. */
  datatype Offsets = Offsets(top: real, left: real)

  /** An element: its own offsets and size, and the offsets of its offsetParent chain, nearest first. */
  datatype Element = Element(offsetTop: real, offsetLeft: real, offsetWidth: real, offsetHeight: real, parents: seq<Offsets>)

  /** The window's scroll position and inner size. */
  datatype Window = Window(pageXOffset: real, pageYOffset: real, innerWidth: real, innerHeight: real)

  function SumTop(chain: seq<Offsets>): real {
    if chain == [] then 0.0 else SumTop(chain[..|chain| - 1]) + chain[|chain| - 1].top
  }

  function SumLeft(chain: seq<Offsets>): real {
    if chain == [] then 0.0 else SumLeft(chain[..|chain| - 1]) + chain[|chain| - 1].left
  }

  function PageTop(el: Element): real {
    el.offsetTop + SumTop(el.parents)
  }

  function PageLeft(el: Element): real {
    el.offsetLeft + SumLeft(el.parents)
  }

  /** The open interval (lo, lo + size) meets the open interval (wlo, wlo + wsize). */
  predicate AxisOverlap(lo: real, size: real, wlo: real, wsize: real) {
    lo < wlo + wsize && lo + size > wlo
  }

  predicate InViewport(el: Element, w: Window) {
    && AxisOverlap(PageTop(el), el.offsetHeight, w.pageYOffset, w.innerHeight)
    && AxisOverlap(PageLeft(el), el.offsetWidth, w.pageXOffset, w.innerWidth)
  }

  /** elementInViewport: walks up the offsetParent chain, summing offsets. */
  method ElementInViewport(el: Element, w: Window) returns (visible: bool)
    ensures visible == InViewport(el, w)
  {
    var top := el.offsetTop;
    var left := el.offsetLeft;
    var width := el.offsetWidth;
    var height := el.offsetHeight;

    var i := 0;
    while i < |el.parents|
      invariant 0 <= i <= |el.parents|
      invariant top == el.offsetTop + SumTop(el.parents[..i])
      invariant left == el.offsetLeft + SumLeft(el.parents[..i])
    {
      assert el.parents[..i + 1][..i] == el.parents[..i];
      top := top + el.parents[i].top;
      left := left + el.parents[i].left;
      i := i + 1;
    }
    assert el.parents[..i] == el.parents;

    visible :=
      top < w.pageYOffset + w.innerHeight &&
      left < w.pageXOffset + w.innerWidth &&
      top + height > w.pageYOffset &&
      left + width > w.pageXOffset;
  }

  /** p lies strictly inside (lo, lo + size). */
  predicate Inside(p: real, lo: real, size: real) {
    lo < p < lo + size
  }

  /** For boxes of positive size, the strict test holds exactly when the two open intervals share a point. */
  lemma AxisOverlapSharesPoint(lo: real, size: real, wlo: real, wsize: real)
    requires size > 0.0 && wsize > 0.0
    ensures AxisOverlap(lo, size, wlo, wsize) <==>
            exists p :: Inside(p, lo, size) && Inside(p, wlo, wsize)
  {
    if AxisOverlap(lo, size, wlo, wsize) {
      var a := if lo > wlo then lo else wlo;
      var b := if lo + size < wlo + wsize then lo + size else wlo + wsize;
      var p := (a + b) / 2.0;
      assert Inside(p, lo, size) && Inside(p, wlo, wsize);
    }
  }
}
