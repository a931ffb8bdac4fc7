/**
 * The on-screen back-end: painter calls become cairo path commands on the
 * window's backing pixmap, and mouse events drive the zoom rectangle.
 * Pango's text extents are a function parameter; widgets and signals are
 * not modelled.
 */
module Gtk {
  import opened GxTypes
  import opened Windows
  import Ants

  /** What the painter asks of cairo and Pango. */
  datatype CairoCmd =
    | SetLineWidth(width: real)
    | LineCapRound
    | SetSource(color: Color)
    | MoveTo(x: real, y: real)
    | LineTo(x: real, y: real)
    | Arc(cx: real, cy: real, r: real)                 // a full circle
    | Rectangle(x: real, y: real, w: real, h: real)
    | Stroke
    | Fill
    | FontSize(points: int)
    | ShowLayout(x: real, y: real, text: string)

  /** The attributes gtk_painter_t caches (cairo keeps width and colour). */
  datatype Cache = Cache(lineStyle: int, markType: int, markSizeX: real, markSizeY: real)

  /** g_new0 leaves the line style 0; gtk_painter_new sets the mark defaults. */
  const INITIAL_CACHE: Cache := Cache(0, 0, 1.0, 1.0)

  /** Pango's logical pixel extents (width, height) of a text at a point size. */
  type Extents = (string, int) -> (int, int)

  // ---------------------------------------------------------------------
  // Attributes
  // ---------------------------------------------------------------------

  function PresetColor(style: int): (c: Color)
    requires IsRole(style)
    ensures style == L_AXIS ==> c == BLACK
    ensures style == L_GRID ==> c == GRAY80
    ensures style == L_ZERO ==> c == WHITE
  {
    if style == L_AXIS then BLACK else if style == L_GRID then GRAY80 else WHITE
  }

  /** The preset widths are ints: 1 for axis and grid, 2 for the zero line. */
  function PresetWidth(style: int): (w: int)
    requires IsRole(style)
    ensures w == (if style == L_ZERO then 2 else 1)
  {
    if style == L_AXIS then 1 else if style == L_GRID then 1 else 2
  }

  function AttributeCmds(color: Color, lineWidth: real): seq<CairoCmd> {
    [SetLineWidth(lineWidth), LineCapRound, SetSource(color)]
  }

  // ---------------------------------------------------------------------
  // Lines
  // ---------------------------------------------------------------------

  /** One subpath per segment. */
  function SegmentPath(segs: seq<Seg>): seq<CairoCmd>
    decreases |segs|
  {
    if segs == [] then []
    else
      var s := segs[|segs| - 1];
      SegmentPath(segs[..|segs| - 1]) + [MoveTo(s.x1, s.y1), LineTo(s.x2, s.y2)]
  }

  /** The path holds every segment of the batch, in order, as its own move and line. */
  lemma {:induction false} SegmentPathShape(segs: seq<Seg>)
    ensures |SegmentPath(segs)| == 2 * |segs|
    ensures forall k :: 0 <= k < |segs| ==>
      SegmentPath(segs)[2 * k] == MoveTo(segs[k].x1, segs[k].y1) &&
      SegmentPath(segs)[2 * k + 1] == LineTo(segs[k].x2, segs[k].y2)
    decreases |segs|
  {
    if segs != [] {
      var init := segs[..|segs| - 1];
      SegmentPathShape(init);
      forall k | 0 <= k < |segs|
        ensures SegmentPath(segs)[2 * k] == MoveTo(segs[k].x1, segs[k].y1)
        ensures SegmentPath(segs)[2 * k + 1] == LineTo(segs[k].x2, segs[k].y2)
      {
        if k < |init| {
          assert init[k] == segs[k];
        }
      }
    }
  }

  // ---------------------------------------------------------------------
  // Marks
  // ---------------------------------------------------------------------

  predicate NeedsStroke(markType: int) {
    markType == MARK_TYPE_CIRCLE || markType == MARK_TYPE_SQUARE
  }

  predicate NeedsFill(markType: int) {
    markType == MARK_TYPE_FCIRCLE || markType == MARK_TYPE_FSQUARE
  }

  /** The path draw_one_mark adds for a mark at (x, y) with the given type and size. */
  function MarkShape(markType: int, x: int, y: int, sizeX: real, sizeY: real): seq<CairoCmd> {
    var cx, cy := x as real, y as real;
    var rx, ry := sizeX / 2.0, sizeY / 2.0;
    if markType == MARK_TYPE_CIRCLE || markType == MARK_TYPE_FCIRCLE then
      [MoveTo(cx + rx, cy), Arc(cx, cy, rx)]
    else if markType == MARK_TYPE_SQUARE then
      [MoveTo(cx - rx, cy - ry), Rectangle(cx - rx, cy - ry, 2.0 * rx, 2.0 * ry)]
    else if markType == MARK_TYPE_FSQUARE then
      [Rectangle(cx - rx, cy - ry, 2.0 * rx, 2.0 * ry)]
    else []
  }

  /** A mark's position reaches draw_one_mark as int, truncated from the double. */
  function MarkPath(st: Cache, m: Mark): seq<CairoCmd> {
    MarkShape(st.markType, Trunc(m.x), Trunc(m.y), st.markSizeX, st.markSizeY)
  }

  /** draw_one_mark: the path for one mark, and whether it asks for a stroke or a fill. */
  method DrawOneMark(x: int, y: int, markType: int, sizeX: real, sizeY: real)
    returns (path: seq<CairoCmd>, needStroke: bool, needFill: bool)
    ensures path == MarkShape(markType, x, y, sizeX, sizeY)
    ensures needStroke == NeedsStroke(markType) && needFill == NeedsFill(markType)
  {
    var rx, ry := sizeX / 2.0, sizeY / 2.0;
    path, needStroke, needFill := [], false, false;
    if markType == MARK_TYPE_CIRCLE {
      path := [MoveTo(x as real + rx, y as real), Arc(x as real, y as real, rx)];
      needStroke := true;
    } else if markType == MARK_TYPE_FCIRCLE {
      path := [MoveTo(x as real + rx, y as real), Arc(x as real, y as real, rx)];
      needFill := true;
    } else if markType == MARK_TYPE_SQUARE {
      path := [MoveTo(x as real - rx, y as real - ry), Rectangle(x as real - rx, y as real - ry, 2.0 * rx, 2.0 * ry)];
      needStroke := true;
    } else if markType == MARK_TYPE_FSQUARE {
      path := [Rectangle(x as real - rx, y as real - ry, 2.0 * rx, 2.0 * ry)];
      needFill := true;
    }
  }

  function MarksPath(st: Cache, marks: seq<Mark>): seq<CairoCmd>
    decreases |marks|
  {
    if marks == [] then [] else MarksPath(st, marks[..|marks| - 1]) + MarkPath(st, marks[|marks| - 1])
  }

  lemma MarksPathSnoc(st: Cache, marks: seq<Mark>, i: nat)
    requires i < |marks|
    ensures MarksPath(st, marks[..i + 1]) == MarksPath(st, marks[..i]) + MarkPath(st, marks[i])
  {
    assert marks[..i + 1][..i] == marks[..i] && marks[..i + 1][i] == marks[i];
  }

  /** draw_marks: all marks in one path, then at most one stroke and one fill. */
  function MarkCmds(st: Cache, marks: seq<Mark>): seq<CairoCmd> {
    MarksPath(st, marks)
      + (if marks != [] && NeedsStroke(st.markType) then [Stroke] else [])
      + (if marks != [] && NeedsFill(st.markType) then [Fill] else [])
  }

  predicate Paints(c: CairoCmd) {
    c.Stroke? || c.Fill?
  }

  function PaintCount(cmds: seq<CairoCmd>): nat
    decreases |cmds|
  {
    if cmds == [] then 0 else PaintCount(cmds[..|cmds| - 1]) + (if Paints(cmds[|cmds| - 1]) then 1 else 0)
  }

  lemma PaintCountSnoc(cmds: seq<CairoCmd>, c: CairoCmd)
    ensures PaintCount(cmds + [c]) == PaintCount(cmds) + (if Paints(c) then 1 else 0)
  {
    assert (cmds + [c])[..|cmds|] == cmds;
  }

  lemma {:induction false} PaintCountAppend(a: seq<CairoCmd>, b: seq<CairoCmd>)
    ensures PaintCount(a + b) == PaintCount(a) + PaintCount(b)
    decreases |b|
  {
    if b == [] {
      assert a + b == a;
    } else {
      var init := b[..|b| - 1];
      PaintCountAppend(a, init);
      assert a + b == (a + init) + [b[|b| - 1]];
      PaintCountSnoc(a + init, b[|b| - 1]);
    }
  }

  /** One mark's path paints nothing. */
  lemma MarkPathPaintsNothing(st: Cache, m: Mark)
    ensures PaintCount(MarkPath(st, m)) == 0
    ensures MarkPath(st, m) == [] <==> !(NeedsStroke(st.markType) || NeedsFill(st.markType))
  {
    var p := MarkPath(st, m);
    if |p| == 2 {
      assert !Paints(p[0]) && !Paints(p[1]);
      assert p[..1][..0] == [] && p[..1] == [p[0]];
      assert PaintCount(p[..1]) == 0;
    } else if |p| == 1 {
      assert p[..0] == [];
    }
  }

  /** Building the mark path paints nothing, and every mark adds to it exactly for the drawable types. */
  lemma {:induction false} MarksPathShape(st: Cache, marks: seq<Mark>)
    ensures PaintCount(MarksPath(st, marks)) == 0
    ensures marks == [] || !(NeedsStroke(st.markType) || NeedsFill(st.markType)) <==> MarksPath(st, marks) == []
    decreases |marks|
  {
    if marks != [] {
      var init := marks[..|marks| - 1];
      MarksPathShape(st, init);
      MarkPathPaintsNothing(st, marks[|marks| - 1]);
      PaintCountAppend(MarksPath(st, init), MarkPath(st, marks[|marks| - 1]));
    }
  }

  /**
   * Circles and squares end in exactly one stroke, filled circles and
   * squares in exactly one fill; pixels, unknown types and empty batches
   * draw nothing at all.
   */
  lemma MarkPaint(st: Cache, marks: seq<Mark>)
    ensures var cmds := MarkCmds(st, marks);
      (marks != [] && NeedsStroke(st.markType) ==> cmds[|cmds| - 1] == Stroke && PaintCount(cmds) == 1) &&
      (marks != [] && NeedsFill(st.markType) ==> cmds[|cmds| - 1] == Fill && PaintCount(cmds) == 1) &&
      (marks == [] || !(NeedsStroke(st.markType) || NeedsFill(st.markType)) ==> cmds == [])
  {
    MarksPathShape(st, marks);
    var p := MarksPath(st, marks);
    if marks != [] && NeedsStroke(st.markType) {
      assert MarkCmds(st, marks) == p + [Stroke];
      PaintCountSnoc(p, Stroke);
    } else if marks != [] && NeedsFill(st.markType) {
      assert MarkCmds(st, marks) == p + [Fill];
      PaintCountSnoc(p, Fill);
    }
  }

  // ---------------------------------------------------------------------
  // Text
  // ---------------------------------------------------------------------

  function TextSize(style: int): (size: int)
    ensures size == (if style == T_TITLE then 18 else 8)
  {
    if style == T_TITLE then 18 else 8
  }

  /** C's int division by 2: truncation toward zero. */
  function Half(n: int): int {
    if n >= 0 then n / 2 else -((-n) / 2)
  }

  /** Where the layout's top-left corner goes for a justification, given its extents w and h. */
  function TextOrigin(x: real, y: real, w: int, h: int, just: int): (real, real) {
    if just == T_RIGHT then (x - w as real, y - Half(h) as real)
    else if just == T_LOWERLEFT then (x, y - h as real)
    else if just == T_UPPERLEFT then (x, y)
    else if just == T_BOTTOM then (x - Half(w) as real, y - h as real)
    else if just == T_TOP then (x - Half(w) as real, y)
    else (x, y)
  }

  /**
   * With non-negative extents, RIGHT puts the text's right edge on x and
   * centres it vertically, BOTTOM and LOWERLEFT put its bottom on y, BOTTOM
   * and TOP centre it horizontally; every centring is exact to within half
   * a pixel, with the text never further left (or up) than exact.
   */
  lemma TextPlacement(x: real, y: real, w: int, h: int, just: int)
    requires w >= 0 && h >= 0
    ensures var o := TextOrigin(x, y, w, h, just);
      (just == T_RIGHT ==> o.0 + w as real == x && 0.0 <= o.1 + h as real / 2.0 - y <= 0.5) &&
      (just == T_LOWERLEFT ==> o.0 == x && o.1 + h as real == y) &&
      (just == T_BOTTOM ==> o.1 + h as real == y && 0.0 <= o.0 + w as real / 2.0 - x <= 0.5) &&
      (just == T_TOP ==> o.1 == y && 0.0 <= o.0 + w as real / 2.0 - x <= 0.5) &&
      (just !in {T_RIGHT, T_LOWERLEFT, T_BOTTOM, T_TOP} ==> o == (x, y))
  {
    HalfBounds(w);
    HalfBounds(h);
  }

  lemma HalfBounds(n: int)
    requires n >= 0
    ensures 0.0 <= n as real / 2.0 - Half(n) as real <= 0.5
  {
    assert n == 2 * (n / 2) + n % 2;
  }

  function TextCmds(x: real, y: real, text: string, just: int, style: int, extents: Extents): seq<CairoCmd> {
    var size := TextSize(style);
    var (w, h) := extents(text, size);
    var o := TextOrigin(x, y, w, h, just);
    [FontSize(size), SetSource(BLACK), MoveTo(o.0, o.1), ShowLayout(o.0, o.1, text)]
  }

  // ---------------------------------------------------------------------
  // One painter call
  // ---------------------------------------------------------------------

  function Step(st: Cache, call: Call, extents: Extents): (Cache, seq<CairoCmd>)
    requires Sound(call)
  {
    match call
    case SetAttributes(color, lineWidth, lineStyle, markType, sx, sy) =>
      (Cache(lineStyle, markType, sx, sy), AttributeCmds(color, lineWidth))
    case SetAttributesStyle(style) =>
      (Cache(0, 0, 1.0, 1.0), AttributeCmds(PresetColor(style), PresetWidth(style) as real))
    case DrawLine(x1, y1, x2, y2) => (st, [MoveTo(x1, y1), LineTo(x2, y2), Stroke])
    case DrawSegments(segs) => (st, SegmentPath(segs) + [Stroke])
    case DrawMarks(marks) => (st, MarkCmds(st, marks))
    case DrawText(x, y, text, just, style) => (st, TextCmds(x, y, text, just, style, extents))
    case GroupStart(_) => (st, [])
    case GroupEnd(_) => (st, [])
  }

  function Render(st: Cache, calls: seq<Call>, extents: Extents): (Cache, seq<CairoCmd>)
    requires AllSound(calls)
    decreases |calls|
  {
    if calls == [] then (st, [])
    else
      var r := Render(st, calls[..|calls| - 1], extents);
      var s := Step(r.0, calls[|calls| - 1], extents);
      (s.0, r.1 + s.1)
  }

  /** A segment batch paints one stroke, after all of its subpaths; draw_line is the one-segment case. */
  lemma SegmentsStrokeOnce(st: Cache, segs: seq<Seg>, x1: real, y1: real, x2: real, y2: real, extents: Extents)
    ensures var cmds := Step(st, DrawSegments(segs), extents).1;
      cmds[|cmds| - 1] == Stroke && |cmds| == 2 * |segs| + 1
    ensures Step(st, DrawLine(x1, y1, x2, y2), extents).1 == SegmentPath([Seg(x1, y1, x2, y2)]) + [Stroke]
    ensures Step(st, DrawLine(x1, y1, x2, y2), extents).1 == Step(st, DrawSegments([Seg(x1, y1, x2, y2)]), extents).1
  {
    SegmentPathShape(segs);
    assert [Seg(x1, y1, x2, y2)][..0] == [];
    assert SegmentPath([Seg(x1, y1, x2, y2)]) == [MoveTo(x1, y1), LineTo(x2, y2)];
  }

  /** A role preset resets the cached line style and marks to 0, 1.0, 1.0. */
  lemma StyleResetsMarks(st: Cache, style: int, extents: Extents)
    requires IsRole(style)
    ensures Step(st, SetAttributesStyle(style), extents).0 == INITIAL_CACHE
    ensures Step(st, SetAttributesStyle(style), extents).1 ==
      Step(st, SetAttributes(PresetColor(style), PresetWidth(style) as real, 0, 0, 1.0, 1.0), extents).1
  {
  }

  // ---------------------------------------------------------------------
  // The zoom rectangle
  // ---------------------------------------------------------------------

  /** WORLDX: pixel column back to world x. */
  function WorldX(v: View, sx: real): real {
    (sx - v.orgX) * v.scaleX + v.worldOrgX
  }

  /** WORLDY: pixel row back to world y. */
  function WorldY(v: View, sy: real): real {
    (v.oppY - sy) * v.scaleY + v.worldOrgY
  }

  /**
   * WORLDX and WORLDY are the inverses of SCREENX and SCREENY; the coded
   * pair only agrees when the window's scale is taken as world units per
   * pixel in both directions.
   */
  lemma WorldScreenInverse(v: View, sx: real, sy: real, x: real, y: real)
    requires v.scaleX != 0.0 && v.scaleY != 0.0
    ensures ScreenX(v, WorldX(v, sx)) == sx && ScreenY(v, WorldY(v, sy)) == sy
    ensures WorldX(v, ScreenX(v, x)) == x && WorldY(v, ScreenY(v, y)) == y
  {
    assert (sx - v.orgX) * v.scaleX / v.scaleX == sx - v.orgX;
    assert (v.oppY - sy) * v.scaleY / v.scaleY == v.oppY - sy;
    assert (x - v.worldOrgX) / v.scaleX * v.scaleX == x - v.worldOrgX;
    assert (y - v.worldOrgY) / v.scaleY * v.scaleY == y - v.worldOrgY;
  }

  /** Dragging across the whole plot area asks for the world rectangle on view. */
  lemma PlotAreaDrag(v: View)
    requires Fitted(v)
    ensures WorldX(v, v.orgX) == v.worldOrgX && WorldX(v, v.oppX) == v.worldOppX
    ensures WorldY(v, v.oppY) == v.worldOrgY && WorldY(v, v.orgY) == v.worldOppY
  {
    var dx, dy := v.oppX - v.orgX, v.oppY - v.orgY;
    var wx, wy := v.worldOppX - v.worldOrgX, v.worldOppY - v.worldOrgY;
    assert v.scaleX == wx / dx && v.scaleY == wy / dy;
    calc {
      WorldX(v, v.oppX);
      dx * v.scaleX + v.worldOrgX;
      { MulDivCancel(wx, dx); }
      wx + v.worldOrgX;
    }
    calc {
      WorldY(v, v.orgY);
      dy * v.scaleY + v.worldOrgY;
      { MulDivCancel(wy, dy); }
      wy + v.worldOrgY;
    }
    OriginCorners(v);
  }

  /** The origin corner of the plot area maps back to the world origin, whatever the scales. */
  lemma OriginCorners(v: View)
    ensures WorldX(v, v.orgX) == v.worldOrgX && WorldY(v, v.oppY) == v.worldOrgY
  {
    assert v.orgX - v.orgX == 0.0 && v.oppY - v.oppY == 0.0;
  }

  lemma MulDivCancel(d: real, w: real)
    requires w != 0.0
    ensures w * (d / w) == d
  {
  }

  /** The world rectangle a release asks gxgraph_add_window_with_world for. */
  datatype Zoom = Zoom(x0: real, y0: real, x1: real, y1: real)

  /** b is {p, q} in increasing order. */
  predicate SortedPair(lo: real, hi: real, p: real, q: real) {
    lo <= hi && ((lo == p && hi == q) || (lo == q && hi == p))
  }

  predicate SortedIntPair(lo: int, hi: int, p: int, q: int) {
    lo <= hi && ((lo == p && hi == q) || (lo == q && hi == p))
  }

  /** A gtk_painter_t: cached attributes, the cairo log and the zoom state. */
  class GtkPainter {
    var areaW: int
    var areaH: int
    var out: seq<CairoCmd>
    var currentLineStyle: int
    var currentMarkType: int
    var currentMarkSizeX: real
    var currentMarkSizeY: real
    var isDefiningZoomArea: bool
    var startCx: int
    var startCy: int
    var ants: Ants.MovingAnts?

    function CacheOf(): Cache
      reads this
    {
      Cache(currentLineStyle, currentMarkType, currentMarkSizeX, currentMarkSizeY)
    }

    /** The fields the drawing calls leave alone: the zoom state, the lasso and the area. */
    function Others(): (bool, int, int, Ants.MovingAnts?, int, int)
      reads this
    {
      (isDefiningZoomArea, startCx, startCy, ants, areaW, areaH)
    }

    /** gtk_painter_new: not zooming, no lasso yet, no area until the first configure. */
    constructor ()
      ensures out == [] && CacheOf() == INITIAL_CACHE && !isDefiningZoomArea
      ensures areaW == 0 && areaH == 0 && ants == null
    {
      areaW, areaH := 0, 0;
      out := [];
      currentLineStyle := 0;
      isDefiningZoomArea := false;
      startCx, startCy := 0, 0;
      ants := null;
      currentMarkType := 0;
      currentMarkSizeX := 1.0;
      currentMarkSizeY := 1.0;
    }

    /** cb_configure_event: the new area size and a fresh lasso. */
    method Configure(width: int, height: int)
      modifies this
      ensures areaW == width && areaH == height
      ensures ants != null && fresh(ants) && ants.Valid() && !ants.hasStore && Ants.NoneHeld(ants.backing[..]) && ants.out == []
      ensures out == old(out) && CacheOf() == old(CacheOf()) && isDefiningZoomArea == old(isDefiningZoomArea)
      ensures startCx == old(startCx) && startCy == old(startCy)
    {
      areaW, areaH := width, height;
      ants := new Ants.MovingAnts();
    }

    method SetAttributes(color: Color, lineWidth: real, lineStyle: int, markType: int, markSizeX: real, markSizeY: real)
      modifies this
      ensures CacheOf() == Cache(lineStyle, markType, markSizeX, markSizeY)
      ensures out == old(out) + AttributeCmds(color, lineWidth)
      ensures Others() == old(Others())
    {
      out := out + [SetLineWidth(lineWidth), LineCapRound, SetSource(color)];
      currentLineStyle := lineStyle;
      currentMarkType := markType;
      currentMarkSizeX := markSizeX;
      currentMarkSizeY := markSizeY;
    }

    method SetAttributesStyle(style: int)
      requires IsRole(style)
      modifies this
      ensures var r := Step(old(CacheOf()), Call.SetAttributesStyle(style), (t, s) => (0, 0));
        CacheOf() == r.0 && out == old(out) + r.1
      ensures Others() == old(Others())
    {
      var colorName, lineWidth;
      if style == L_AXIS {
        colorName, lineWidth := BLACK, 1;
      } else if style == L_GRID {
        colorName, lineWidth := GRAY80, 1;
      } else {
        colorName, lineWidth := WHITE, 2;
      }
      SetAttributes(colorName, lineWidth as real, 0, 0, 1.0, 1.0);
    }

    method DrawLine(x1: real, y1: real, x2: real, y2: real)
      modifies this
      ensures out == old(out) + [MoveTo(x1, y1), LineTo(x2, y2), Stroke]
      ensures CacheOf() == old(CacheOf()) && Others() == old(Others())
    {
      out := out + [MoveTo(x1, y1), LineTo(x2, y2), Stroke];
    }

    method DrawSegments(segs: seq<Seg>)
      modifies this
      ensures out == old(out) + SegmentPath(segs) + [Stroke]
      ensures CacheOf() == old(CacheOf()) && Others() == old(Others())
    {
      var i := 0;
      while i < |segs|
        invariant 0 <= i <= |segs| && out == old(out) + SegmentPath(segs[..i])
        invariant CacheOf() == old(CacheOf()) && Others() == old(Others())
      {
        assert segs[..i + 1][..i] == segs[..i];
        out := out + [MoveTo(segs[i].x1, segs[i].y1), LineTo(segs[i].x2, segs[i].y2)];
        i := i + 1;
      }
      assert segs[..i] == segs;
      out := out + [Stroke];
    }

    method DrawMarks(marks: seq<Mark>)
      modifies this
      ensures out == old(out) + MarkCmds(CacheOf(), marks)
      ensures CacheOf() == old(CacheOf()) && Others() == old(Others())
    {
      var needStroke, needFill := false, false;
      var path := [];
      var i := 0;
      while i < |marks|
        invariant 0 <= i <= |marks| && path == MarksPath(CacheOf(), marks[..i])
        invariant needStroke == (i > 0 && NeedsStroke(currentMarkType))
        invariant needFill == (i > 0 && NeedsFill(currentMarkType))
        invariant unchanged(this)
      {
        MarksPathSnoc(CacheOf(), marks, i);
        var p, s1, f1 := DrawOneMark(Trunc(marks[i].x), Trunc(marks[i].y), currentMarkType, currentMarkSizeX, currentMarkSizeY);
        path := path + p;
        needStroke, needFill := needStroke || s1, needFill || f1;
        i := i + 1;
      }
      assert marks[..i] == marks;
      out := out + path;
      if needStroke {
        out := out + [Stroke];
      }
      if needFill {
        out := out + [Fill];
      }
    }

    method DrawText(x: real, y: real, text: string, just: int, style: int, extents: Extents)
      modifies this
      ensures out == old(out) + TextCmds(x, y, text, just, style, extents)
      ensures CacheOf() == old(CacheOf()) && Others() == old(Others())
    {
      var textSize := 8;
      if style == T_TITLE {
        textSize := 18;
      }
      var (layoutWidth, layoutHeight) := extents(text, textSize);
      var xPos, yPos := x, y;
      if just == T_RIGHT {
        xPos := xPos - layoutWidth as real;
        yPos := yPos - Half(layoutHeight) as real;
      } else if just == T_LOWERLEFT {
        yPos := yPos - layoutHeight as real;
      } else if just == T_UPPERLEFT {
        yPos := yPos - 0.0;
      } else if just == T_BOTTOM {
        yPos := yPos - layoutHeight as real;
        xPos := xPos - Half(layoutWidth) as real;
      } else if just == T_TOP {
        xPos := xPos - Half(layoutWidth) as real;
      }
      out := out + [FontSize(textSize), SetSource(BLACK), MoveTo(xPos, yPos), ShowLayout(xPos, yPos, text)];
    }

    method Apply(call: Call, extents: Extents)
      requires Sound(call)
      modifies this
      ensures var r := Step(old(CacheOf()), call, extents); CacheOf() == r.0 && out == old(out) + r.1
      ensures Others() == old(Others())
    {
      match call
      case SetAttributes(color, lineWidth, lineStyle, markType, sx, sy) =>
        SetAttributes(color, lineWidth, lineStyle, markType, sx, sy);
      case SetAttributesStyle(style) => SetAttributesStyle(style);
      case DrawLine(x1, y1, x2, y2) => DrawLine(x1, y1, x2, y2);
      case DrawSegments(segs) => DrawSegments(segs);
      case DrawMarks(marks) => DrawMarks(marks);
      case DrawText(x, y, text, just, style) => DrawText(x, y, text, just, style, extents);
      case GroupStart(_) =>
      case GroupEnd(_) =>
    }

    method Play(calls: seq<Call>, extents: Extents)
      requires AllSound(calls)
      modifies this
      ensures var r := Render(old(CacheOf()), calls, extents); CacheOf() == r.0 && out == old(out) + r.1
      ensures Others() == old(Others())
    {
      var i := 0;
      assert calls[..0] == [];
      while i < |calls|
        invariant 0 <= i <= |calls|
        invariant var r := Render(old(CacheOf()), calls[..i], extents); CacheOf() == r.0 && out == old(out) + r.1
        invariant Others() == old(Others())
      {
        ghost var r := Render(old(CacheOf()), calls[..i], extents);
        assert calls[..i + 1][..i] == calls[..i] && calls[..i + 1][i] == calls[i];
        assert AllSound(calls[..i + 1]);
        Apply(calls[i], extents);
        ghost var st := Step(r.0, calls[i], extents);
        assert out == old(out) + r.1 + st.1;
        assert Render(old(CacheOf()), calls[..i + 1], extents).1 == r.1 + st.1;
        i := i + 1;
      }
      assert calls[..i] == calls;
    }

    /** cb_button_press_event: button 1 starts a zoom rectangle at the pointer. */
    method ButtonPress(button: int, x: real, y: real) returns (caught: bool)
      modifies this
      ensures caught == (button == 1)
      ensures button == 1 ==> isDefiningZoomArea && startCx == Trunc(x) && startCy == Trunc(y)
      ensures button != 1 ==> isDefiningZoomArea == old(isDefiningZoomArea) && startCx == old(startCx) && startCy == old(startCy)
      ensures out == old(out) && CacheOf() == old(CacheOf()) && ants == old(ants)
      ensures areaW == old(areaW) && areaH == old(areaH)
    {
      caught := false;
      var cx, cy := Trunc(x), Trunc(y);
      if button == 1 {
        caught := true;
        isDefiningZoomArea := true;
        startCx := cx;
        startCy := cy;
      }
    }

    /** cb_motion_event: while a zoom rectangle is being defined, redraw the lasso from the start point to the pointer. */
    method Motion(x: real, y: real) returns (handled: bool)
      requires ants != null && ants.Valid()
      modifies ants, ants.backing, ants.storageCoords
      ensures handled && ants.Valid()
      ensures isDefiningZoomArea ==> exists b: Ants.BBox ::
        (LassoOf(b, Trunc(x), Trunc(y)) && ants.storageCoords[..] == Ants.Strips(b) && ants.hasStore
         && ants.out == old(ants.out)
              + (if old(ants.hasStore) then Ants.Restores(old(ants.storageCoords[..]), old(ants.backing[..])) else [])
              + Ants.Saves(Ants.Strips(b)) + Ants.Paints(Ants.Strips(b)))
      ensures !isDefiningZoomArea ==> unchanged(ants, ants.backing, ants.storageCoords)
    {
      handled := true;
      var cx, cy := Trunc(x), Trunc(y);
      if isDefiningZoomArea {
        var b0, b1, b2, b3 := startCx, startCy, cx, cy;
        if b0 > b2 {
          var tmp := b0;
          b0 := b2;
          b2 := tmp;
        }
        if b1 > b3 {
          var tmp := b1;
          b1 := b3;
          b3 := tmp;
        }
        var b := Ants.BBox(b0, b1, b2, b3);
        assert LassoOf(b, cx, cy);
        ants.DrawLasso(b);
      }
    }

    /** The lasso box runs from the start point to (cx, cy), with its corners sorted. */
    ghost predicate LassoOf(b: Ants.BBox, cx: int, cy: int)
      reads this
    {
      SortedIntPair(b.b0, b.b2, startCx, cx) && SortedIntPair(b.b1, b.b3, startCy, cy)
    }

    /**
     * cb_button_release_event: a release that does not end a zoom rectangle
     * is not handled; one that does ends it, and for button 1 erases the
     * lasso and asks for a window on the world rectangle between the two
     * corners, sorted.
     */
    method ButtonRelease(button: int, x: real, y: real, v: View) returns (handled: bool, zoom: Option<Zoom>)
      requires ants != null && ants.Valid()
      modifies this, ants, ants.backing
      ensures ants == old(ants) && ants != null && ants.Valid()
      ensures handled == old(isDefiningZoomArea) && !isDefiningZoomArea
      ensures !handled ==> zoom == None && unchanged(ants, ants.backing)
      ensures handled ==> (zoom.Some? <==> button == 1)
      ensures zoom.Some? ==> !ants.hasStore && Ants.NoneHeld(ants.backing[..])
      ensures zoom.Some? ==> ants.out == old(ants.out) + Ants.Restores(old(ants.storageCoords[..]), old(ants.backing[..]))
      ensures zoom.Some? ==>
        SortedPair(zoom.value.x0, zoom.value.x1, WorldX(v, startCx as real), WorldX(v, Trunc(x) as real)) &&
        SortedPair(zoom.value.y0, zoom.value.y1, WorldY(v, startCy as real), WorldY(v, Trunc(y) as real))
      ensures zoom.None? ==> unchanged(ants, ants.backing)
      ensures startCx == old(startCx) && startCy == old(startCy)
      ensures out == old(out) && CacheOf() == old(CacheOf()) && areaW == old(areaW) && areaH == old(areaH)
    {
      var cx, cy := Trunc(x), Trunc(y);
      zoom := None;
      if !isDefiningZoomArea {
        return false, None;
      }
      isDefiningZoomArea := false;
      if button == 1 {
        ants.RestoreBackground();
        var wx0 := WorldX(v, startCx as real);
        var wy0 := WorldY(v, startCy as real);
        var wx1 := WorldX(v, cx as real);
        var wy1 := WorldY(v, cy as real);
        if wx0 > wx1 {
          var tmp := wx1;
          wx1 := wx0;
          wx0 := tmp;
        }
        if wy0 > wy1 {
          var tmp := wy1;
          wy1 := wy0;
          wy0 := tmp;
        }
        zoom := Some(Zoom(wx0, wy0, wx1, wy1));
      }
      handled := true;
    }
  }
}
