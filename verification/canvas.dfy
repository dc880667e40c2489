/**
 * The circuit canvas of QlayVisual (QlayVisual/CircuitCanvas.cs): a WPF
 * canvas whose children are the horizontal qubit lines, the dropped circuit
 * items and anything else, with the line rebuild, the line read-back and the
 * measure pass that sizes the canvas to its contents.
 */
module Canvas {

  // ---------------------------------------------------------------------------
  // Values
  // ---------------------------------------------------------------------------

  /**
   * A WPF double where NaN matters: an unset `Canvas.Left`/`Canvas.Top`, an
   * unset `Width`. Arithmetic with NaN gives NaN and every ordered comparison
   * with NaN is false, as in IEEE 754.
   */
  datatype Coord = NaN | Num(v: real) {
    /** `this + d`. */
    function Plus(d: real): (c: Coord)
      ensures c.Num? <==> Num?
      ensures c.Num? ==> c.v == v + d
    {
      if NaN? then NaN else Num(v + d)
    }

    /** `this < x`. */
    predicate Below(x: real) {
      Num? && v < x
    }

    /** `this > x`. */
    predicate Above(x: real) {
      Num? && v > x
    }

    /** `double.IsNaN(this) ? 0 : this`. */
    function OrZero(): real {
      if NaN? then 0.0 else v
    }
  }

  /** A child of a circuit item's inner canvas: a TextBox holding an angle in degrees, or a decoration. */
  datatype Part = TextBox(text: string) | Decoration

  /** What a child of the canvas is. */
  datatype Kind =
    | Line(x1: Coord, y1: Coord, x2: Coord, y2: Coord)
    | Item(tag: string, width: Coord, height: Coord, parts: seq<Part>)
    | Other

  /** A child of the canvas with its attached `Canvas.Left`, `Canvas.Top` and `Panel.ZIndex`. */
  datatype Element = Element(left: Coord, top: Coord, zIndex: int, kind: Kind)

  /** `LINE_SEPARATION`. */
  const LineSeparation: real := 80.0

  // ---------------------------------------------------------------------------
  // Line children (`Children.OfType<Line>()`) and the rest
  // ---------------------------------------------------------------------------

  function LinesOf(cs: seq<Element>): (r: seq<Element>)
    ensures |r| <= |cs|
    ensures forall i :: 0 <= i < |r| ==> r[i].kind.Line?
  {
    if cs == [] then []
    else if cs[0].kind.Line? then [cs[0]] + LinesOf(cs[1..])
    else LinesOf(cs[1..])
  }

  function NonLines(cs: seq<Element>): (r: seq<Element>)
    ensures |r| <= |cs|
    ensures forall i :: 0 <= i < |r| ==> !r[i].kind.Line?
  {
    if cs == [] then []
    else if cs[0].kind.Line? then NonLines(cs[1..])
    else [cs[0]] + NonLines(cs[1..])
  }

  lemma {:induction false} LinesOfAppend(a: seq<Element>, b: seq<Element>)
    ensures LinesOf(a + b) == LinesOf(a) + LinesOf(b)
    ensures NonLines(a + b) == NonLines(a) + NonLines(b)
  {
    if a == [] {
      assert a + b == b;
    } else {
      assert (a + b)[1..] == a[1..] + b;
      LinesOfAppend(a[1..], b);
    }
  }

  /** A sequence with no line in it is left alone by NonLines. */
  lemma {:induction false} NonLinesOfNoLines(cs: seq<Element>)
    requires LinesOf(cs) == []
    ensures NonLines(cs) == cs
  {
    if cs != [] {
      NonLinesOfNoLines(cs[1..]);
    }
  }

  /** NonLines has no line left in it. */
  lemma {:induction false} LinesOfNonLines(cs: seq<Element>)
    ensures LinesOf(NonLines(cs)) == []
    ensures NonLines(NonLines(cs)) == NonLines(cs)
  {
    if cs != [] {
      LinesOfNonLines(cs[1..]);
    }
  }

  /** `Children.Remove(x)`: the first child equal to x goes, the rest keep their order. */
  function RemoveFirst(cs: seq<Element>, x: Element): (r: seq<Element>)
    ensures x in cs ==> |r| == |cs| - 1
    ensures x !in cs ==> r == cs
  {
    if cs == [] then []
    else if cs[0] == x then cs[1..]
    else [cs[0]] + RemoveFirst(cs[1..], x)
  }

  /** When x is a child, RemoveFirst drops its first occurrence, at index i, and keeps the children around it in order. */
  lemma {:induction false} RemoveFirstExact(cs: seq<Element>, x: Element) returns (i: nat)
    requires x in cs
    ensures i < |cs| && cs[i] == x && x !in cs[..i]
    ensures RemoveFirst(cs, x) == cs[..i] + cs[i + 1..]
  {
    if cs[0] == x {
      i := 0;
    } else {
      var j := RemoveFirstExact(cs[1..], x);
      i := j + 1;
      assert cs[..i] == [cs[0]] + cs[1..][..j];
      assert cs[i + 1..] == cs[1..][j + 1..];
    }
  }

  /** Removing the first line of the list removes exactly that line and no other child. */
  lemma {:induction false} RemoveFirstLine(cs: seq<Element>)
    requires LinesOf(cs) != []
    ensures LinesOf(RemoveFirst(cs, LinesOf(cs)[0])) == LinesOf(cs)[1..]
    ensures NonLines(RemoveFirst(cs, LinesOf(cs)[0])) == NonLines(cs)
  {
    var x := LinesOf(cs)[0];
    if cs[0] == x {
    } else {
      assert !cs[0].kind.Line?;
      RemoveFirstLine(cs[1..]);
    }
  }

  // ---------------------------------------------------------------------------
  // The qubit lines SetQubitLines draws
  // ---------------------------------------------------------------------------

  /** Line i: stroke 4 from X 0 to the canvas Width at height LINE_SEPARATION * (i + 1), behind the items. */
  function QubitLine(i: nat, width: Coord): Element {
    var y := Num(LineSeparation * (i + 1) as real);
    Element(NaN, NaN, -1, Line(Num(0.0), y, width, y))
  }

  /** The lines `for (int i = 0; i < n; i++)` adds, in order. */
  function QubitLines(n: int, width: Coord): (r: seq<Element>)
    ensures |r| == if n <= 0 then 0 else n
    ensures forall i :: 0 <= i < |r| ==> r[i] == QubitLine(i, width)
  {
    if n <= 0 then [] else QubitLines(n - 1, width) + [QubitLine(n - 1, width)]
  }

  /** The children after `SetQubitLines(n)`: the non-lines in their old order, then the n new lines. */
  function Rebuilt(cs: seq<Element>, n: int, width: Coord): seq<Element> {
    NonLines(cs) + QubitLines(n, width)
  }

  /** A sequence made only of lines is its own line list. */
  lemma {:induction false} LinesOfAllLines(ls: seq<Element>)
    requires forall i :: 0 <= i < |ls| ==> ls[i].kind.Line?
    ensures LinesOf(ls) == ls && NonLines(ls) == []
  {
    if ls != [] {
      LinesOfAllLines(ls[1..]);
    }
  }

  /**
   * After SetQubitLines(n) there are exactly max(n, 0) lines; line i is
   * horizontal at Y = 80 (i + 1), runs from X 0 to the canvas Width, and sits
   * at Z-index -1; and the children that are not lines are unchanged, in order.
   */
  lemma RebuiltLines(cs: seq<Element>, n: int, width: Coord)
    ensures |LinesOf(Rebuilt(cs, n, width))| == if n <= 0 then 0 else n
    ensures forall i :: 0 <= i < |LinesOf(Rebuilt(cs, n, width))| ==>
      var l := LinesOf(Rebuilt(cs, n, width))[i];
      l.kind.y1 == l.kind.y2 == Num(80.0 * (i + 1) as real) &&
      l.kind.x1 == Num(0.0) && l.kind.x2 == width && l.zIndex == -1
    ensures NonLines(Rebuilt(cs, n, width)) == NonLines(cs)
  {
    LinesOfAppend(NonLines(cs), QubitLines(n, width));
    LinesOfNonLines(cs);
    LinesOfAllLines(QubitLines(n, width));
  }

  /** The Y1 of each line among cs, in child order. */
  function LineYs(cs: seq<Element>): (ys: seq<Coord>)
    ensures |ys| == |LinesOf(cs)|
    ensures forall i :: 0 <= i < |ys| ==> ys[i] == LinesOf(cs)[i].kind.y1
  {
    var ls := LinesOf(cs);
    seq(|ls|, i requires 0 <= i < |ls| => ls[i].kind.y1)
  }

  /** Child k adds its own Y1 to the line heights before it when it is a line. */
  lemma {:induction false} LineYsStep(cs: seq<Element>, k: nat)
    requires k < |cs|
    ensures LineYs(cs[..k + 1]) == LineYs(cs[..k]) + if cs[k].kind.Line? then [cs[k].kind.y1] else []
  {
    assert cs[..k + 1] == cs[..k] + [cs[k]];
    LinesOfAppend(cs[..k], [cs[k]]);
    assert [cs[k]][1..] == [];
    assert LinesOf([cs[k]]) == if cs[k].kind.Line? then [cs[k]] else [];
  }

  /** After SetQubitLines(n) the line heights read back as 80, 160, ..., 80 n: strictly increasing. */
  lemma RebuiltLineYs(cs: seq<Element>, n: int, width: Coord)
    ensures |LineYs(Rebuilt(cs, n, width))| == if n <= 0 then 0 else n
    ensures forall i :: 0 <= i < |LineYs(Rebuilt(cs, n, width))| ==>
      LineYs(Rebuilt(cs, n, width))[i] == Num(80.0 * (i + 1) as real)
    ensures forall i, j :: 0 <= i < j < |LineYs(Rebuilt(cs, n, width))| ==>
      LineYs(Rebuilt(cs, n, width))[i].v < LineYs(Rebuilt(cs, n, width))[j].v
  {
    RebuiltLines(cs, n, width);
  }

  // ---------------------------------------------------------------------------
  // MeasureOverride
  // ---------------------------------------------------------------------------

  /** A child's `DesiredSize` after `Measure(constraint)`; its components may be NaN. */
  datatype Measured = Measured(width: Coord, height: Coord)

  /** A WPF `Size`, never NaN here. */
  datatype Size = Size(width: real, height: real)

  /** A child whose desired size has no NaN takes part in the extent. */
  predicate Counted(e: Element, desired: Element -> Measured) {
    desired(e).width.Num? && desired(e).height.Num?
  }

  /** How far right a counted child reaches: its Left (0 if NaN) plus its desired width. */
  function ReachX(e: Element, desired: Element -> Measured): real
    requires Counted(e, desired)
  {
    e.left.OrZero() + desired(e).width.v
  }

  /** How far down a counted child reaches: its Top (0 if NaN) plus its desired height. */
  function ReachY(e: Element, desired: Element -> Measured): real
    requires Counted(e, desired)
  {
    e.top.OrZero() + desired(e).height.v
  }

  /** Things the user can change on a canvas that the methods here defer to code outside this model. */
  datatype Request =
    | SnapRequested(item: Element)  // CircuitItem.SnapToQubitLine, not defined in this model
    | LabelsCleared                 // CircuitCanvas.ClearMeasurementLabels, not defined in this model

  // ---------------------------------------------------------------------------
  // The canvas
  // ---------------------------------------------------------------------------

  class CircuitCanvas {
    /** `Children`, in order. */
    var children: seq<Element>
    /** The canvas' own `Width` (NaN until set). */
    var width: Coord
    /** The calls made on the canvas' items and on the canvas to methods outside this model, in order. */
    var requests: seq<Request>

    /** `new CircuitCanvas()`: no children, no Width. */
    constructor ()
      ensures children == [] && width == NaN && requests == []
    {
      children := [];
      width := NaN;
      requests := [];
    }

    /** `CircuitCanvas_Loaded`: the canvas starts with one qubit line. */
    method Loaded()
      modifies this
      ensures children == Rebuilt(old(children), 1, width)
      ensures width == old(width) && requests == old(requests)
    {
      SetQubitLines(1);
    }

    /** `SetQubitLines(n)`: delete each line child, then add n fresh lines. */
    method SetQubitLines(n: int)
      modifies this
      ensures children == Rebuilt(old(children), n, width)
      ensures width == old(width) && requests == old(requests)
    {
      var lines := LinesOf(children);
      var k := 0;
      while k < |lines|
        invariant 0 <= k <= |lines|
        invariant LinesOf(children) == lines[k..]
        invariant NonLines(children) == NonLines(old(children))
        invariant width == old(width) && requests == old(requests)
      {
        RemoveFirstLine(children);
        children := RemoveFirst(children, lines[k]);
        k := k + 1;
      }
      NonLinesOfNoLines(children);
      var i := 0;
      while i < n
        invariant 0 <= i <= if n <= 0 then 0 else n
        invariant children == NonLines(old(children)) + QubitLines(i, width)
        invariant width == old(width) && requests == old(requests)
      {
        children := children + [QubitLine(i, width)];
        i := i + 1;
      }
    }

    /** `QubitLineYValues`: the Y1 of every line child, in child order; other children are skipped. */
    method QubitLineYValues() returns (ys: seq<Coord>)
      ensures |ys| == |LinesOf(children)|
      ensures forall i :: 0 <= i < |ys| ==> ys[i] == LinesOf(children)[i].kind.y1
    {
      ys := [];
      var k := 0;
      while k < |children|
        invariant 0 <= k <= |children|
        invariant ys == LineYs(children[..k])
      {
        LineYsStep(children, k);
        if children[k].kind.Line? {
          ys := ys + [children[k].kind.y1];
        }
        k := k + 1;
      }
      assert children[..k] == children;
    }

    /**
     * `MeasureOverride`: 10 more than the furthest right (and down) any counted
     * child reaches, and never less than 10. `desired` gives each child's
     * `DesiredSize` under the constraint the pass was given.
     */
    method MeasureOverride(desired: Element -> Measured) returns (size: Size)
      ensures size.width >= 10.0 && size.height >= 10.0
      ensures forall i :: 0 <= i < |children| && Counted(children[i], desired) ==>
        size.width >= ReachX(children[i], desired) + 10.0 && size.height >= ReachY(children[i], desired) + 10.0
      ensures size.width == 10.0 ||
        exists i :: 0 <= i < |children| && Counted(children[i], desired) && size.width == ReachX(children[i], desired) + 10.0
      ensures size.height == 10.0 ||
        exists i :: 0 <= i < |children| && Counted(children[i], desired) && size.height == ReachY(children[i], desired) + 10.0
      ensures children == [] ==> size == Size(10.0, 10.0)
    {
      var w, h := 0.0, 0.0;
      var k := 0;
      while k < |children|
        invariant 0 <= k <= |children|
        invariant w >= 0.0 && h >= 0.0
        invariant forall i :: 0 <= i < k && Counted(children[i], desired) ==>
          w >= ReachX(children[i], desired) && h >= ReachY(children[i], desired)
        invariant w == 0.0 || exists i :: 0 <= i < k && Counted(children[i], desired) && w == ReachX(children[i], desired)
        invariant h == 0.0 || exists i :: 0 <= i < k && Counted(children[i], desired) && h == ReachY(children[i], desired)
      {
        var e := children[k];
        var left := e.left.OrZero();
        var top := e.top.OrZero();
        var d := desired(e);
        if d.width.Num? && d.height.Num? {
          w := if w >= left + d.width.v then w else left + d.width.v;
          h := if h >= top + d.height.v then h else top + d.height.v;
        }
        k := k + 1;
      }
      size := Size(w + 10.0, h + 10.0);
    }
  }
}
