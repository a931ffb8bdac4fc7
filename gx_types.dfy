/**
 * Types and constants shared by the plot pipeline: the justification, text
 * style, line style, drawing operation and mark type codes of gxgraph.h, the
 * point / mark / segment records that travel between the geometry engine and
 * the painters, the per-dataset style record, and the painter interface as a
 * datatype of calls.
 */
module GxTypes {

  datatype Option<T> = None | Some(value: T)

  // Text justifications (gxgraph.h)
  const T_CENTER: int := 0
  const T_LEFT: int := 1
  const T_UPPERLEFT: int := 2
  const T_TOP: int := 3
  const T_UPPERRIGHT: int := 4
  const T_RIGHT: int := 5
  const T_LOWERRIGHT: int := 6
  const T_BOTTOM: int := 7
  const T_LOWERLEFT: int := 8

  // Text styles
  const T_AXIS: int := 0
  const T_TITLE: int := 1

  // Line styles, used as role presets by set_attributes_style
  const L_AXIS: int := 0
  const L_ZERO: int := 1
  const L_VAR: int := 2
  const L_GRID: int := 3

  // Mark types
  const MARK_TYPE_FCIRCLE: int := 1
  const MARK_TYPE_FSQUARE: int := 2
  const MARK_TYPE_CIRCLE: int := 3
  const MARK_TYPE_SQUARE: int := 4
  const MARK_TYPE_PIXEL: int := 5

  /** GDK_LINE_SOLID, the line style the orchestrator passes for data and legend lines. */
  const GDK_LINE_SOLID: int := 0

  /** The three presets every painter's set_attributes_style handles (its switch has no default). */
  predicate IsRole(style: int) {
    style == L_AXIS || style == L_GRID || style == L_ZERO
  }

  /** A GdkColor: three 16-bit channels. */
  datatype Color = Color(red: nat, green: nat, blue: nat)

  // The X11 colours the role presets name, as gdk_color_parse returns them.
  const BLACK: Color := Color(0, 0, 0)
  const GRAY80: Color := Color(0xcccc, 0xcccc, 0xcccc)
  const WHITE: Color := Color(0xffff, 0xffff, 0xffff)

  /** A straight segment in pixel space (seg_t). */
  datatype Seg = Seg(x1: real, y1: real, x2: real, y2: real)

  /** A mark position in pixel space (mark_t). */
  datatype Mark = Mark(x: real, y: real)

  /** Drawing operations of the records in a dataset's points array. */
  datatype Op = Move | Draw | Text

  /**
   * One record of a dataset's points array, in world coordinates. For a Text
   * record, x and y are whatever the point member of the union holds once the
   * text object pointer has been stored over it.
   */
  datatype Point = Point(op: Op, x: real, y: real)

  /** A gboolean used as a tri-state: TRUE, FALSE or DEFAULT (-1). */
  datatype TriState = On | Off | Unset

  /** The painter_t layout fields every back-end fills in. */
  datatype Metrics = Metrics(
    areaW: nat, areaH: nat,
    bdrPad: nat, axisPad: nat, tickLen: nat, legendPad: nat,
    axisWidth: nat, axisHeight: nat, titleWidth: nat, titleHeight: nat)

  /** The layout constants ps_painter_new, svg_painter_new and gtk_painter_new all use. */
  function PainterMetrics(areaW: nat, areaH: nat): (m: Metrics)
    ensures m.areaW == areaW && m.areaH == areaH
    ensures m.bdrPad == 2 && m.axisPad == 10 && m.tickLen == 5 && m.legendPad == 0
    ensures m.axisWidth == 5 && m.axisHeight == 13
  {
    Metrics(areaW, areaH, 2, 10, 5, 0, 5, 13, 5, 5)
  }

  /** dataset_t: one data set with its style. */
  datatype Dataset = Dataset(
    color: Color,
    outlineColor: Option<Color>,   // None: never assigned (uninitialised in the source)
    lineWidth: real,
    lineStyle: int,
    markType: int,
    textSize: int,
    markSize: real,
    doScaleMarks: int,
    doDrawMarks: TriState,
    doDrawLines: TriState,
    doDrawPolygon: bool,
    doDrawPolygonOutline: bool,
    points: seq<Point>,
    pathName: Option<string>,
    fileName: Option<string>,
    isVisible: bool,
    setName: Option<string>)

  /** The world_t record of a window. */
  datatype World = World(x0: real, y0: real, x1: real, y1: real, scaleX: real, scaleY: real)

  /** One call through the painter_t function table. */
  datatype Call =
    | SetAttributes(color: Color, lineWidth: real, lineStyle: int, markType: int, sizeX: real, sizeY: real)
    | SetAttributesStyle(style: int)
    | DrawLine(x1: real, y1: real, x2: real, y2: real)
    | DrawSegments(segs: seq<Seg>)
    | DrawMarks(marks: seq<Mark>)
    | DrawText(x: real, y: real, text: string, just: int, style: int)
    | GroupStart(name: string)
    | GroupEnd(name: string)

  /** Nesting depth after one call; -1 once a group_end had no open group. */
  function DepthStep(d: int, c: Call): int {
    if d < 0 then -1
    else if c.GroupStart? then d + 1
    else if c.GroupEnd? then (if d == 0 then -1 else d - 1)
    else d
  }

  /** Nesting depth after a sequence of calls, starting at depth d. */
  function DepthAfter(d: int, calls: seq<Call>): int
    decreases |calls|
  {
    if calls == [] then d else DepthAfter(DepthStep(d, calls[0]), calls[1..])
  }

  /** group_start / group_end calls that pair up. */
  predicate Balanced(calls: seq<Call>) {
    DepthAfter(0, calls) == 0
  }

  lemma {:induction false} DepthAfterAppend(d: int, a: seq<Call>, b: seq<Call>)
    ensures DepthAfter(d, a + b) == DepthAfter(DepthAfter(d, a), b)
    decreases |a|
  {
    if a == [] {
      assert a + b == b;
    } else {
      assert (a + b)[0] == a[0];
      assert (a + b)[1..] == a[1..] + b;
      var d' := DepthStep(d, a[0]);
      assert DepthAfter(d, a + b) == DepthAfter(d', a[1..] + b);
      assert DepthAfter(d, a) == DepthAfter(d', a[1..]);
      DepthAfterAppend(d', a[1..], b);
    }
  }

  predicate NoGroupCalls(calls: seq<Call>) {
    forall i :: 0 <= i < |calls| ==> !calls[i].GroupStart? && !calls[i].GroupEnd?
  }

  lemma NoGroupCallsConcat(a: seq<Call>, b: seq<Call>)
    requires NoGroupCalls(a) && NoGroupCalls(b)
    ensures NoGroupCalls(a + b)
  {
    assert forall i :: 0 <= i < |a| ==> (a + b)[i] == a[i];
    assert forall i :: |a| <= i < |a + b| ==> (a + b)[i] == b[i - |a|];
  }

  lemma {:induction false} NoGroupCallsKeepDepth(d: int, calls: seq<Call>)
    requires d >= 0 && NoGroupCalls(calls)
    ensures DepthAfter(d, calls) == d
    decreases |calls|
  {
    if calls != [] {
      assert NoGroupCalls(calls[1..]) by {
        forall i | 0 <= i < |calls[1..]| ensures !calls[1..][i].GroupStart? && !calls[1..][i].GroupEnd? {
          assert calls[1..][i] == calls[i + 1];
        }
      }
      NoGroupCallsKeepDepth(d, calls[1..]);
    }
  }

  lemma BalancedConcat(a: seq<Call>, b: seq<Call>)
    requires Balanced(a) && Balanced(b)
    ensures Balanced(a + b)
  {
    DepthAfterAppend(0, a, b);
  }

  /** Wrapping balanced calls in a named group keeps them balanced. */
  lemma {:induction false} BalancedWrap(name: string, body: seq<Call>)
    requires Balanced(body)
    ensures Balanced([GroupStart(name)] + body + [GroupEnd(name)])
  {
    DepthAfterAppend(0, [GroupStart(name)] + body, [GroupEnd(name)]);
    DepthAfterAppend(0, [GroupStart(name)], body);
    DepthLift(0, body);
  }

  /** Balanced calls run from any open depth return to it. */
  lemma DepthLift(k: nat, body: seq<Call>)
    requires Balanced(body)
    ensures DepthAfter(k + 1, body) == k + 1
  {
    DepthShift(0, k + 1, body);
  }

  /** Once a group_end has no open group the depth stays negative. */
  lemma {:induction false} DepthAbsorb(d: int, calls: seq<Call>)
    requires d < 0
    ensures DepthAfter(d, calls) < 0
    decreases |calls|
  {
    if calls != [] {
      DepthAbsorb(DepthStep(d, calls[0]), calls[1..]);
    }
  }

  lemma {:induction false} DepthShift(d: int, k: nat, calls: seq<Call>)
    requires d >= 0 && DepthAfter(d, calls) >= 0
    ensures DepthAfter(d + k, calls) == DepthAfter(d, calls) + k
    decreases |calls|
  {
    if calls != [] {
      var d' := DepthStep(d, calls[0]);
      if d' < 0 {
        DepthAbsorb(d', calls[1..]);
      }
      assert DepthStep(d + k, calls[0]) == d' + k;
      DepthShift(d', k, calls[1..]);
    }
  }

  /**
   * A call every back-end can take: set_attributes_style only knows the
   * three role presets (its switch has no default), and the SVG painter
   * indexes its anchor table with the justification code.
   */
  predicate Sound(c: Call) {
    (c.SetAttributesStyle? ==> IsRole(c.style)) && (c.DrawText? ==> T_CENTER <= c.just <= T_LOWERLEFT)
  }

  predicate AllSound(calls: seq<Call>) {
    forall i :: 0 <= i < |calls| ==> Sound(calls[i])
  }

  lemma AllSoundConcat(a: seq<Call>, b: seq<Call>)
    requires AllSound(a) && AllSound(b)
    ensures AllSound(a + b)
  {
    assert forall i :: 0 <= i < |a| ==> (a + b)[i] == a[i];
    assert forall i :: |a| <= i < |a + b| ==> (a + b)[i] == b[i - |a|];
  }

  /** A C cast from double to int: truncation toward zero. */
  function Trunc(r: real): (i: int)
    ensures r >= 0.0 ==> i as real <= r < i as real + 1.0
    ensures r < 0.0 ==> i as real - 1.0 < r <= i as real
  {
    if r >= 0.0 then r.Floor else -((-r).Floor)
  }
}
