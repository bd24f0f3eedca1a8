/** SVG elements as values, with their attributes as typed fields. */
module Svg {
  import opened Wrappers

  /**
   * One SVG element. An attribute the renderer never sets on an element is
   * `None`; a `fill` of `None` is an attribute set to `undefined`.
   */
  datatype Element =
    | Group(children: seq<Element>)
    | Rect(x: int, y: int, width: int, height: int,
           rx: Option<int>, ry: Option<int>,
           fill: Option<string>, opacity: Option<string>,
           stroke: Option<string>, strokeWidth: Option<int>)
    | Circle(cx: int, cy: int, r: int, fill: Option<string>)
    | Text(x: int, y: int, fontFamily: string, fontSize: int, fill: Option<string>, content: string)

  /** An axis-aligned box in drawing units, origin at the top left. */
  datatype Box = Box(x: int, y: int, width: int, height: int)

  /** The area a leaf element paints; a text is reduced to its anchor point. */
  function Extent(e: Element): Box
    requires !e.Group?
  {
    match e
    case Rect(x, y, w, h, _, _, _, _, _, _) => Box(x, y, w, h)
    case Circle(cx, cy, r, _) => Box(cx - r, cy - r, 2 * r, 2 * r)
    case Text(x, y, _, _, _, _) => Box(x, y, 0, 0)
  }

  predicate Within(inner: Box, outer: Box) {
    outer.x <= inner.x && inner.x + inner.width <= outer.x + outer.width &&
    outer.y <= inner.y && inner.y + inner.height <= outer.y + outer.height
  }

  /** `inner` lies inside `outer` without touching its border. */
  predicate StrictlyWithin(inner: Box, outer: Box) {
    outer.x < inner.x && inner.x + inner.width < outer.x + outer.width &&
    outer.y < inner.y && inner.y + inner.height < outer.y + outer.height
  }

  predicate Contains(b: Box, px: int, py: int) {
    b.x <= px < b.x + b.width && b.y <= py < b.y + b.height
  }

  /** Twice the centre of `b`, so that it stays an integer. */
  function DoubledCentre(b: Box): (int, int) {
    (2 * b.x + b.width, 2 * b.y + b.height)
  }

  /** Every element is a leaf that paints only inside `box`. */
  predicate AllWithin(es: seq<Element>, box: Box) {
    forall e :: e in es ==> !e.Group? && Within(Extent(e), box)
  }

  predicate Distinct<T(==)>(s: seq<T>) {
    forall i, j :: 0 <= i < j < |s| ==> s[i] != s[j]
  }

  lemma DistinctAppend<T>(a: seq<T>, b: seq<T>)
    requires Distinct(a) && Distinct(b)
    requires forall e :: e in a ==> e !in b
    ensures Distinct(a + b)
  {
    forall i, j | 0 <= i < j < |a + b|
      ensures (a + b)[i] != (a + b)[j]
    {
      if j < |a| {
        assert (a + b)[i] == a[i] && (a + b)[j] == a[j];
      } else if |a| <= i {
        assert (a + b)[i] == b[i - |a|] && (a + b)[j] == b[j - |a|];
      } else {
        assert (a + b)[i] == a[i] && (a + b)[j] == b[j - |a|];
        assert a[i] in a && b[j - |a|] in b;
      }
    }
  }
}
