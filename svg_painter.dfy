/**
 * The SVG back-end. The output stream is a log of the elements the
 * painter writes (groups, stroked paths, circles, text), with path data as
 * moveto / lineto commands (sections 8.3.2 and 8.3.4 of SVG 1.1) and
 * numbers as exact reals.
 */
module Svg {
  import opened GxTypes

  const VDPI: real := 72.0
  const POINTS_PER_INCH: real := 72.0
  /** The painter's initial text size, which nothing changes afterwards. */
  const INITIAL_TEXT_SIZE: real := 11.0

  /** DEV: pixels to points. */
  function Dev(v: real): real {
    v * POINTS_PER_INCH / VDPI
  }

  /** With 72 pixels per inch, DEV is the identity. */
  lemma DevIdentity(v: real)
    ensures Dev(v) == v
  {
  }

  /** A colour as the painter prints it: each 16-bit channel divided by 256. */
  datatype Rgb8 = Rgb8(r: nat, g: nat, b: nat)

  function Rgb8Of(c: Color): Rgb8 {
    Rgb8(c.red / 256, c.green / 256, c.blue / 256)
  }

  datatype PathCmd = MoveTo(x: real, y: real) | LineTo(x: real, y: real)

  /** One element (or tag) of the SVG stream. */
  datatype SvgCmd =
    | Prolog                                               // XML declaration and DOCTYPE
    | SvgOpen(width: real, height: real)                   // <svg width height>
    | SvgClose                                             // </svg>
    | Path(stroke: Rgb8, strokeWidth: real, d: seq<PathCmd>)  // <g style=...><path d=.../></g>
    | FilledCircle(cx: real, cy: real, r: real, fill: Rgb8)
    | StrokedCircle(cx: real, cy: real, r: real, stroke: Rgb8, strokeWidth: real)
    | TextNode(anchor: string, fontSize: real, fill: Rgb8, x: real, y: real, text: string)
    | GroupOpen(id: string)                                // <g id="...">
    | GroupClose                                           // </g>

  /** The attributes svg_painter_t caches. */
  datatype State = State(textSize: real, lineWidth: real, markType: int,
                         markSizeX: real, markSizeY: real, color: Color)

  /** g_new0 zeroes everything; the text size is then set to 11. */
  const INITIAL_STATE: State := State(INITIAL_TEXT_SIZE, 0.0, 0, 0.0, 0.0, Color(0, 0, 0))

  /** The document head svg_painter_new writes. */
  function Header(graphWidth: real, graphHeight: real): seq<SvgCmd> {
    [Prolog, SvgOpen(Dev(graphWidth), Dev(graphHeight))]
  }

  // ---------------------------------------------------------------------
  // Attributes
  // ---------------------------------------------------------------------

  /** A line width of 0 is stored as 1, so that hairlines stay visible. */
  function StoredWidth(lineWidth: real): (w: real)
    ensures lineWidth == 0.0 ==> w == 1.0
    ensures lineWidth != 0.0 ==> w == lineWidth
  {
    if lineWidth == 0.0 then 1.0 else lineWidth
  }

  function PresetColor(style: int): Color
    requires IsRole(style)
  {
    if style == L_GRID then GRAY80 else BLACK
  }

  function PresetWidth(style: int): real
    requires IsRole(style)
  {
    if style == L_AXIS then 1.0 else if style == L_GRID then 0.5 else 2.0
  }

  function Attributes(st: State, color: Color, lineWidth: real, markType: int, sx: real, sy: real): State {
    st.(markType := markType, markSizeX := sx, markSizeY := sy, color := color, lineWidth := StoredWidth(lineWidth))
  }

  // ---------------------------------------------------------------------
  // Paths
  // ---------------------------------------------------------------------

  /** Segment k starts a new subpath: it is the first, or it does not start where the previous one ended. */
  predicate Breaks(segs: seq<Seg>, k: nat)
    requires k < |segs|
  {
    k == 0 || segs[k].x1 != segs[k - 1].x2 || segs[k].y1 != segs[k - 1].y2
  }

  /** The path data draw_segments builds: an M where a subpath starts, an L per segment. */
  function PathOf(segs: seq<Seg>): seq<PathCmd>
    decreases |segs|
  {
    if segs == [] then []
    else
      var k := |segs| - 1;
      var s := segs[k];
      PathOf(segs[..k])
        + (if Breaks(segs, k) then [MoveTo(Dev(s.x1), Dev(s.y1))] else [])
        + [LineTo(Dev(s.x2), Dev(s.y2))]
  }

  /**
   * What a renderer draws for path data: M sets the current point, L
   * draws a segment from it to its own point. An L with no current point
   * draws nothing. The second part is the current point at the end.
   */
  function Replay(d: seq<PathCmd>): (seq<Seg>, Option<(real, real)>)
    decreases |d|
  {
    if d == [] then ([], None)
    else
      var r := Replay(d[..|d| - 1]);
      var c := d[|d| - 1];
      if c.LineTo? && r.1.Some? then (r.0 + [Seg(r.1.value.0, r.1.value.1, c.x, c.y)], Some((c.x, c.y)))
      else (r.0, Some((c.x, c.y)))
  }

  /** Replaying the path data of a batch draws exactly that batch, in order. */
  lemma {:induction false} PathRoundTrip(segs: seq<Seg>)
    ensures Replay(PathOf(segs)).0 == segs
    ensures segs != [] ==> Replay(PathOf(segs)).1 == Some((segs[|segs| - 1].x2, segs[|segs| - 1].y2))
    decreases |segs|
  {
    if segs != [] {
      var k := |segs| - 1;
      var init, s := segs[..k], segs[k];
      PathRoundTrip(init);
      var base := PathOf(init);
      var before := base + (if Breaks(segs, k) then [MoveTo(s.x1, s.y1)] else []);
      PathOfLast(segs);
      if Breaks(segs, k) {
        ReplaySnoc(base, MoveTo(s.x1, s.y1));
      } else {
        assert before == base && init[k - 1] == segs[k - 1];
      }
      ReplaySnoc(before, LineTo(s.x2, s.y2));
      assert segs == init + [s];
    }
  }

  /** The path data of a batch ends with its last segment's commands, in device units equal to its own. */
  lemma PathOfLast(segs: seq<Seg>)
    requires segs != []
    ensures var k := |segs| - 1; var s := segs[k];
      PathOf(segs) == PathOf(segs[..k]) + (if Breaks(segs, k) then [MoveTo(s.x1, s.y1)] else []) + [LineTo(s.x2, s.y2)]
  {
    var s := segs[|segs| - 1];
    DevIdentity(s.x1);
    DevIdentity(s.y1);
    DevIdentity(s.x2);
    DevIdentity(s.y2);
  }

  /** Replaying one more command. */
  lemma ReplaySnoc(d: seq<PathCmd>, c: PathCmd)
    ensures Replay(d + [c]).1 == Some((c.x, c.y))
    ensures Replay(d + [c]).0 == if c.LineTo? && Replay(d).1.Some?
      then Replay(d).0 + [Seg(Replay(d).1.value.0, Replay(d).1.value.1, c.x, c.y)] else Replay(d).0
  {
    assert (d + [c])[..|d|] == d;
  }

  function Moves(d: seq<PathCmd>): nat
    decreases |d|
  {
    if d == [] then 0 else Moves(d[..|d| - 1]) + (if d[|d| - 1].MoveTo? then 1 else 0)
  }

  function Lines(d: seq<PathCmd>): nat
    decreases |d|
  {
    if d == [] then 0 else Lines(d[..|d| - 1]) + (if d[|d| - 1].LineTo? then 1 else 0)
  }

  function BreakCount(segs: seq<Seg>): nat
    decreases |segs|
  {
    if segs == [] then 0 else BreakCount(segs[..|segs| - 1]) + (if Breaks(segs, |segs| - 1) then 1 else 0)
  }

  lemma MovesSnoc(d: seq<PathCmd>, c: PathCmd)
    ensures Moves(d + [c]) == Moves(d) + (if c.MoveTo? then 1 else 0)
    ensures Lines(d + [c]) == Lines(d) + (if c.LineTo? then 1 else 0)
  {
    assert (d + [c])[..|d|] == d;
  }

  lemma BreaksPrefix(segs: seq<Seg>, k: nat, n: nat)
    requires k < n <= |segs|
    ensures Breaks(segs[..n], k) == Breaks(segs, k)
  {
  }

  /** Every segment gives one L; every subpath start gives one M. */
  lemma {:induction false} PathCounts(segs: seq<Seg>)
    ensures Lines(PathOf(segs)) == |segs|
    ensures Moves(PathOf(segs)) == BreakCount(segs)
    decreases |segs|
  {
    if segs != [] {
      var k := |segs| - 1;
      var s := segs[k];
      PathCounts(segs[..k]);
      var p := PathOf(segs[..k]);
      if Breaks(segs, k) {
        MovesSnoc(p, MoveTo(s.x1, s.y1));
        MovesSnoc(p + [MoveTo(s.x1, s.y1)], LineTo(s.x2, s.y2));
      } else {
        assert p + [] == p;
        MovesSnoc(p, LineTo(s.x2, s.y2));
      }
    }
  }

  /** Each segment starts where the previous one ended. */
  predicate Chained(segs: seq<Seg>) {
    forall k :: 0 < k < |segs| ==> segs[k].x1 == segs[k - 1].x2 && segs[k].y1 == segs[k - 1].y2
  }

  /** A connected polyline is one subpath: a single M. An empty batch gives an empty path. */
  lemma {:induction false} ChainOneMove(segs: seq<Seg>)
    requires Chained(segs)
    ensures segs != [] ==> Moves(PathOf(segs)) == 1
    ensures segs == [] ==> PathOf(segs) == []
    decreases |segs|
  {
    if segs != [] {
      PathCounts(segs);
      ChainBreaks(segs);
    }
  }

  lemma {:induction false} ChainBreaks(segs: seq<Seg>)
    requires Chained(segs)
    ensures BreakCount(segs) == (if segs == [] then 0 else 1)
    decreases |segs|
  {
    if |segs| > 1 {
      var init := segs[..|segs| - 1];
      assert Chained(init) by {
        forall k | 0 < k < |init| ensures init[k].x1 == init[k - 1].x2 && init[k].y1 == init[k - 1].y2 {
          assert init[k] == segs[k] && init[k - 1] == segs[k - 1];
        }
      }
      ChainBreaks(init);
    } else if |segs| == 1 {
      assert segs[..0] == [];
    }
  }

  // ---------------------------------------------------------------------
  // Marks and text
  // ---------------------------------------------------------------------

  function MarkElem(st: State, m: Mark): seq<SvgCmd> {
    if st.markType == MARK_TYPE_FCIRCLE then
      [FilledCircle(Dev(m.x), Dev(m.y), Dev(st.markSizeX / 2.0), Rgb8Of(st.color))]
    else if st.markType == MARK_TYPE_CIRCLE then
      [StrokedCircle(Dev(m.x), Dev(m.y), Dev(st.markSizeX / 2.0), Rgb8Of(st.color), Dev(st.lineWidth))]
    else []
  }

  /** draw_marks: one circle per mark for the two circle types, nothing for the others. */
  function MarkElems(st: State, marks: seq<Mark>): seq<SvgCmd>
    decreases |marks|
  {
    if marks == [] then [] else MarkElems(st, marks[..|marks| - 1]) + MarkElem(st, marks[|marks| - 1])
  }

  /** Circles of radius half the mark width, centred on the marks, and only for the circle types. */
  lemma {:induction false} MarkElemsShape(st: State, marks: seq<Mark>)
    ensures var circles := st.markType == MARK_TYPE_FCIRCLE || st.markType == MARK_TYPE_CIRCLE;
      |MarkElems(st, marks)| == (if circles then |marks| else 0)
    ensures forall k :: 0 <= k < |MarkElems(st, marks)| ==> var e := MarkElems(st, marks)[k];
      (e.FilledCircle? <==> st.markType == MARK_TYPE_FCIRCLE) &&
      (e.StrokedCircle? <==> st.markType == MARK_TYPE_CIRCLE) &&
      e.cx == marks[k].x && e.cy == marks[k].y && e.r == st.markSizeX / 2.0
    decreases |marks|
  {
    if marks != [] {
      MarkElemsShape(st, marks[..|marks| - 1]);
    }
  }

  /** anchor_names: the text-anchor (and baseline) attributes for each justification code. */
  const ANCHOR_NAMES: seq<string> := [
    "text-anchor=\"middle\" alignment-baseline=\"middle\"",
    "text-anchor=\"start\" alignment-baseline=\"middle\"",
    "text-anchor=\"start\" alignment-baseline=\"middle\"",
    "text-anchor=\"middle\"",
    "text-anchor=\"end\"",
    "text-anchor=\"end\"",
    "text-anchor=\"end\"",
    "text-anchor=\"middle\"",
    "text-anchor=\"start\""]

  function TextSize(style: int, cached: real): real {
    if style == T_TITLE then 18.0 else if style == T_AXIS then 11.0 else cached
  }

  /** How far down the baseline moves for a justification. */
  function YOffset(just: int, size: real): (dy: real)
    ensures just == T_RIGHT ==> dy == 0.37 * size
    ensures just == T_UPPERLEFT ==> dy == 0.8 * size
    ensures just == T_TOP ==> dy == 0.74 * size
    ensures just !in {T_RIGHT, T_UPPERLEFT, T_TOP} ==> dy == 0.0
  {
    if just == T_RIGHT then 0.37 * size
    else if just == T_LOWERLEFT then 0.0
    else if just == T_UPPERLEFT then 0.8 * size
    else if just == T_BOTTOM then 0.0
    else if just == T_TOP then 0.74 * size
    else 0.0
  }

  /** draw_text as written: the font-size attribute is the cached size, not the size just chosen. */
  function TextElemAsWritten(st: State, x: real, y: real, text: string, just: int, style: int): SvgCmd
    requires T_CENTER <= just <= T_LOWERLEFT
  {
    var size := TextSize(style, st.textSize);
    TextNode(ANCHOR_NAMES[just], Dev(st.textSize), Rgb8Of(st.color), Dev(x), Dev(y + YOffset(just, size)), text)
  }

  /** draw_text with the font size it lays the text out for. */
  function TextElem(st: State, x: real, y: real, text: string, just: int, style: int): (e: SvgCmd)
    requires T_CENTER <= just <= T_LOWERLEFT
    ensures e.TextNode? && e.anchor == ANCHOR_NAMES[just] && e.text == text && e.x == x
    ensures e.fontSize == TextSize(style, st.textSize) && e.y == y + YOffset(just, e.fontSize)
  {
    var size := TextSize(style, st.textSize);
    TextNode(ANCHOR_NAMES[just], Dev(size), Rgb8Of(st.color), Dev(x), Dev(y + YOffset(just, size)), text)
  }

  /**
   * Nothing ever changes current_text_size from 11, so a title comes out
   * at font-size 11 although its baseline is shifted for size 18.
   */
  lemma TitleFontAsWritten(st: State, x: real, y: real, text: string)
    requires st.textSize == INITIAL_TEXT_SIZE
    ensures TextElemAsWritten(st, x, y, text, T_TOP, T_TITLE).fontSize == 11.0
    ensures TextElemAsWritten(st, x, y, text, T_TOP, T_TITLE).y == y + 0.74 * 18.0
    ensures TextElem(st, x, y, text, T_TOP, T_TITLE).fontSize == 18.0
  {
  }

  /** Axis text comes out the same either way: only a title's font size differs from the code as written. */
  lemma TextElemAgrees(st: State, x: real, y: real, text: string, just: int, style: int)
    requires T_CENTER <= just <= T_LOWERLEFT && st.textSize == INITIAL_TEXT_SIZE && style != T_TITLE
    ensures TextElem(st, x, y, text, just, style) == TextElemAsWritten(st, x, y, text, just, style)
  {
  }

  // ---------------------------------------------------------------------
  // One painter call
  // ---------------------------------------------------------------------

  /** draw_segments: one stroked path in the current colour and width. */
  function SegmentsElem(st: State, segs: seq<Seg>): SvgCmd {
    Path(Rgb8Of(st.color), 1.0 * Dev(st.lineWidth), PathOf(segs))
  }

  function Step(st: State, call: Call): (State, seq<SvgCmd>)
    requires Sound(call)
  {
    match call
    case SetAttributes(color, lineWidth, _, markType, sx, sy) =>
      (Attributes(st, color, lineWidth, markType, sx, sy), [])
    case SetAttributesStyle(style) =>
      (Attributes(st, PresetColor(style), PresetWidth(style), 0, 1.0, 1.0), [])
    case DrawLine(x1, y1, x2, y2) => (st, [SegmentsElem(st, [Seg(x1, y1, x2, y2)])])
    case DrawSegments(segs) => (st, [SegmentsElem(st, segs)])
    case DrawMarks(marks) => (st, MarkElems(st, marks))
    case DrawText(x, y, text, just, style) => (st, [TextElem(st, x, y, text, just, style)])
    case GroupStart(name) => (st, [GroupOpen(name)])
    case GroupEnd(_) => (st, [GroupClose])
  }

  function Render(st: State, calls: seq<Call>): (State, seq<SvgCmd>)
    requires AllSound(calls)
    decreases |calls|
  {
    if calls == [] then (st, [])
    else
      var r := Render(st, calls[..|calls| - 1]);
      var s := Step(r.0, calls[|calls| - 1]);
      (s.0, r.1 + s.1)
  }

  /** The text size never leaves 11: no call writes it. */
  lemma {:induction false} TextSizeFixed(st: State, calls: seq<Call>)
    requires AllSound(calls)
    ensures Render(st, calls).0.textSize == st.textSize
    decreases |calls|
  {
    if calls != [] {
      TextSizeFixed(st, calls[..|calls| - 1]);
    }
  }

  /** draw_line writes what draw_segments writes for the one-segment batch. */
  lemma LineIsOneSegment(st: State, x1: real, y1: real, x2: real, y2: real)
    ensures Step(st, DrawLine(x1, y1, x2, y2)) == Step(st, DrawSegments([Seg(x1, y1, x2, y2)]))
  {
  }

  // ---------------------------------------------------------------------
  // Group markup
  // ---------------------------------------------------------------------

  /** Open <g> elements after a stream, -1 once a </g> had nothing to close. */
  function TagDepth(d: int, cmds: seq<SvgCmd>): int
    decreases |cmds|
  {
    if cmds == [] then d
    else
      var d' := if d < 0 then -1
                else if cmds[0].GroupOpen? then d + 1
                else if cmds[0].GroupClose? then (if d == 0 then -1 else d - 1)
                else d;
      TagDepth(d', cmds[1..])
  }

  lemma {:induction false} TagDepthAppend(d: int, a: seq<SvgCmd>, b: seq<SvgCmd>)
    ensures TagDepth(d, a + b) == TagDepth(TagDepth(d, a), b)
    decreases |a|
  {
    if a == [] {
      assert a + b == b;
    } else {
      assert (a + b)[0] == a[0] && (a + b)[1..] == a[1..] + b;
      var d' := if d < 0 then -1
                else if a[0].GroupOpen? then d + 1
                else if a[0].GroupClose? then (if d == 0 then -1 else d - 1)
                else d;
      TagDepthAppend(d', a[1..], b);
    }
  }

  predicate NoTags(cmds: seq<SvgCmd>) {
    forall i :: 0 <= i < |cmds| ==> !cmds[i].GroupOpen? && !cmds[i].GroupClose?
  }

  lemma {:induction false} NoTagsKeepDepth(d: int, cmds: seq<SvgCmd>)
    requires d >= -1 && NoTags(cmds)
    ensures TagDepth(d, cmds) == d
    decreases |cmds|
  {
    if cmds != [] {
      assert NoTags(cmds[1..]) by {
        forall i | 0 <= i < |cmds[1..]| ensures !cmds[1..][i].GroupOpen? && !cmds[1..][i].GroupClose? {
          assert cmds[1..][i] == cmds[i + 1];
        }
      }
      NoTagsKeepDepth(d, cmds[1..]);
    }
  }

  /** Starting at -1 or deeper, the group depth never drops below -1. */
  lemma {:induction false} DepthFloor(d: int, calls: seq<Call>)
    requires d >= -1
    ensures DepthAfter(d, calls) >= -1
    decreases |calls|
  {
    if calls != [] {
      DepthFloor(DepthStep(d, calls[0]), calls[1..]);
    }
  }

  lemma {:induction false} MarkElemsNoTags(st: State, marks: seq<Mark>)
    ensures NoTags(MarkElems(st, marks))
    decreases |marks|
  {
    if marks != [] {
      MarkElemsNoTags(st, marks[..|marks| - 1]);
    }
  }

  /** One call moves the <g> depth exactly as it moves the group depth. */
  lemma StepDepth(d: int, st: State, call: Call)
    requires d >= -1 && Sound(call)
    ensures TagDepth(d, Step(st, call).1) == DepthAfter(d, [call])
  {
    var cmds := Step(st, call).1;
    assert [call][1..] == [];
    if call.DrawMarks? {
      MarkElemsNoTags(st, call.marks);
      NoTagsKeepDepth(d, cmds);
    } else if !call.GroupStart? && !call.GroupEnd? {
      assert NoTags(cmds);
      NoTagsKeepDepth(d, cmds);
    } else {
      assert cmds[1..] == [];
    }
  }

  /** The <g> markup the painter writes nests exactly as the group calls it receives. */
  lemma {:induction false} RenderDepth(d: int, st: State, calls: seq<Call>)
    requires d >= -1 && AllSound(calls)
    ensures TagDepth(d, Render(st, calls).1) == DepthAfter(d, calls)
    decreases |calls|
  {
    if calls != [] {
      var init, last := calls[..|calls| - 1], calls[|calls| - 1];
      RenderDepth(d, st, init);
      var r := Render(st, init);
      TagDepthAppend(d, r.1, Step(r.0, last).1);
      DepthFloor(d, init);
      StepDepth(DepthAfter(d, init), r.0, last);
      DepthAfterAppend(d, init, [last]);
      assert init + [last] == calls;
    }
  }

  /** Balanced group calls give balanced <g> markup inside the root <svg> element. */
  lemma BalancedMarkup(w: real, h: real, st: State, calls: seq<Call>)
    requires AllSound(calls) && Balanced(calls)
    ensures TagDepth(0, Render(st, calls).1) == 0
    ensures var doc := Header(w, h) + Render(st, calls).1 + [SvgClose];
      doc[0] == Prolog && doc[1].SvgOpen? && doc[|doc| - 1] == SvgClose && TagDepth(0, doc) == 0
  {
    RenderDepth(0, st, calls);
    var body := Render(st, calls).1;
    TagDepthAppend(0, Header(w, h), body);
    TagDepthAppend(0, Header(w, h) + body, [SvgClose]);
    assert TagDepth(0, Header(w, h)) == 0 by {
      assert Header(w, h)[1..][1..] == [];
    }
    assert [SvgClose][1..] == [];
  }

  // ---------------------------------------------------------------------
  // svg_painter_t
  // ---------------------------------------------------------------------

  class SvgPainter {
    var areaW: int
    var areaH: int
    var fileName: string
    var out: seq<SvgCmd>
    var currentTextSize: real
    var currentLineWidth: real
    var currentMarkType: int
    var currentMarkSizeX: real
    var currentMarkSizeY: real
    var currentColor: Color
    var closed: bool

    function StateOf(): State
      reads this
    {
      State(currentTextSize, currentLineWidth, currentMarkType, currentMarkSizeX, currentMarkSizeY, currentColor)
    }

    /** svg_painter_new: the file, the XML prolog and the root element sized to the graph. */
    constructor(graphWidth: real, graphHeight: real, filename: string)
      ensures areaW == Trunc(graphWidth) && areaH == Trunc(graphHeight) && fileName == filename
      ensures out == Header(graphWidth, graphHeight) && StateOf() == INITIAL_STATE && !closed
    {
      areaW := Trunc(graphWidth);
      areaH := Trunc(graphHeight);
      fileName := filename;
      currentLineWidth, currentMarkType, currentMarkSizeX, currentMarkSizeY := 0.0, 0, 0.0, 0.0;
      currentColor := Color(0, 0, 0);
      out := [Prolog, SvgOpen(graphWidth * POINTS_PER_INCH / VDPI, graphHeight * POINTS_PER_INCH / VDPI)];
      currentTextSize := 11.0;
      closed := false;
    }

    /** svg_painter_delete: close the root element and the file. */
    method Delete()
      requires !closed
      modifies this
      ensures out == old(out) + [SvgClose] && closed
      ensures StateOf() == old(StateOf()) && fileName == old(fileName)
    {
      out := out + [SvgClose];
      closed := true;
    }

    method SetAttributes(color: Color, lineWidth: real, lineStyle: int, markType: int, markSizeX: real, markSizeY: real)
      modifies this
      ensures var r := Step(old(StateOf()), Call.SetAttributes(color, lineWidth, lineStyle, markType, markSizeX, markSizeY));
        StateOf() == r.0 && out == old(out) + r.1
      ensures fileName == old(fileName) && closed == old(closed)
    {
      var w := lineWidth;
      if w == 0.0 {
        w := 1.0;
      }
      currentMarkType := markType;
      currentMarkSizeX := markSizeX;
      currentMarkSizeY := markSizeY;
      currentColor := color;
      currentLineWidth := w;
    }

    method SetAttributesStyle(style: int)
      requires IsRole(style)
      modifies this
      ensures var r := Step(old(StateOf()), Call.SetAttributesStyle(style));
        StateOf() == r.0 && out == old(out) + r.1
      ensures fileName == old(fileName) && closed == old(closed)
    {
      var color, lineWidth;
      if style == L_AXIS {
        color, lineWidth := BLACK, 1.0;
      } else if style == L_GRID {
        color, lineWidth := GRAY80, 0.5;
      } else {
        color, lineWidth := BLACK, 2.0;
      }
      SetAttributes(color, lineWidth, GDK_LINE_SOLID, 0, 1.0, 1.0);
    }

    /** draw_line hands a one-element batch to draw_segments. */
    method DrawLine(x1: real, y1: real, x2: real, y2: real)
      modifies this
      ensures out == old(out) + [SegmentsElem(StateOf(), [Seg(x1, y1, x2, y2)])]
      ensures StateOf() == old(StateOf()) && fileName == old(fileName) && closed == old(closed)
    {
      DrawSegments([Seg(x1, y1, x2, y2)]);
    }

    method DrawSegments(segs: seq<Seg>)
      modifies this
      ensures out == old(out) + [SegmentsElem(StateOf(), segs)]
      ensures StateOf() == old(StateOf()) && fileName == old(fileName) && closed == old(closed)
    {
      var d := [];
      var i := 0;
      while i < |segs|
        invariant 0 <= i <= |segs| && d == PathOf(segs[..i])
      {
        assert segs[..i + 1][..i] == segs[..i];
        assert Breaks(segs[..i + 1], i) == Breaks(segs, i);
        if i == 0 {
          d := d + [MoveTo(Dev(segs[i].x1), Dev(segs[i].y1))];
        } else if segs[i].x1 != segs[i - 1].x2 || segs[i].y1 != segs[i - 1].y2 {
          d := d + [MoveTo(Dev(segs[i].x1), Dev(segs[i].y1))];
        }
        d := d + [LineTo(Dev(segs[i].x2), Dev(segs[i].y2))];
        i := i + 1;
      }
      assert segs[..i] == segs;
      out := out + [Path(Rgb8Of(currentColor), 1.0 * Dev(currentLineWidth), d)];
    }

    method DrawMarks(marks: seq<Mark>)
      modifies this
      ensures out == old(out) + MarkElems(StateOf(), marks)
      ensures StateOf() == old(StateOf()) && fileName == old(fileName) && closed == old(closed)
    {
      var rgb := Rgb8(currentColor.red / 256, currentColor.green / 256, currentColor.blue / 256);
      var i := 0;
      while i < |marks|
        invariant 0 <= i <= |marks| && out == old(out) + MarkElems(StateOf(), marks[..i])
        invariant StateOf() == old(StateOf()) && fileName == old(fileName) && closed == old(closed)
      {
        assert marks[..i + 1][..i] == marks[..i];
        var x, y := marks[i].x, marks[i].y;
        if currentMarkType == MARK_TYPE_FCIRCLE {
          out := out + [FilledCircle(Dev(x), Dev(y), Dev(currentMarkSizeX / 2.0), rgb)];
        } else if currentMarkType == MARK_TYPE_CIRCLE {
          out := out + [StrokedCircle(Dev(x), Dev(y), Dev(currentMarkSizeX / 2.0), rgb, 1.0 * Dev(currentLineWidth))];
        }
        i := i + 1;
      }
      assert marks[..i] == marks;
    }

    method DrawText(x: real, y: real, text: string, just: int, style: int)
      requires T_CENTER <= just <= T_LOWERLEFT
      modifies this
      ensures out == old(out) + [TextElem(StateOf(), x, y, text, just, style)]
      ensures StateOf() == old(StateOf()) && fileName == old(fileName) && closed == old(closed)
    {
      var textSize := currentTextSize;
      var yPos := y;
      if style == T_TITLE {
        textSize := 18.0;
      } else if style == T_AXIS {
        textSize := 11.0;
      }
      if just == T_RIGHT {
        yPos := yPos + 0.37 * textSize;
      } else if just == T_UPPERLEFT {
        yPos := yPos + 0.8 * textSize;
      } else if just == T_TOP {
        yPos := yPos + 0.74 * textSize;
      }
      out := out + [TextNode(ANCHOR_NAMES[just], Dev(textSize), Rgb8Of(currentColor), Dev(x), Dev(yPos), text)];
    }

    method GroupStart(name: string)
      modifies this
      ensures out == old(out) + [GroupOpen(name)]
      ensures StateOf() == old(StateOf()) && fileName == old(fileName) && closed == old(closed)
    {
      out := out + [GroupOpen(name)];
    }

    method GroupEnd(name: string)
      modifies this
      ensures out == old(out) + [GroupClose]
      ensures StateOf() == old(StateOf()) && fileName == old(fileName) && closed == old(closed)
    {
      out := out + [GroupClose];
    }

    method Apply(call: Call)
      requires Sound(call)
      modifies this
      ensures var r := Step(old(StateOf()), call); StateOf() == r.0 && out == old(out) + r.1
      ensures fileName == old(fileName) && closed == old(closed)
    {
      match call
      case SetAttributes(color, lineWidth, lineStyle, markType, sx, sy) =>
        SetAttributes(color, lineWidth, lineStyle, markType, sx, sy);
      case SetAttributesStyle(style) => SetAttributesStyle(style);
      case DrawLine(x1, y1, x2, y2) => DrawLine(x1, y1, x2, y2);
      case DrawSegments(segs) => DrawSegments(segs);
      case DrawMarks(marks) => DrawMarks(marks);
      case DrawText(x, y, text, just, style) => DrawText(x, y, text, just, style);
      case GroupStart(name) => GroupStart(name);
      case GroupEnd(name) => GroupEnd(name);
    }

    method Play(calls: seq<Call>)
      requires AllSound(calls)
      modifies this
      ensures var r := Render(old(StateOf()), calls); StateOf() == r.0 && out == old(out) + r.1
      ensures fileName == old(fileName) && closed == old(closed)
    {
      var i := 0;
      assert calls[..0] == [];
      while i < |calls|
        invariant 0 <= i <= |calls|
        invariant var r := Render(old(StateOf()), calls[..i]); StateOf() == r.0 && out == old(out) + r.1
        invariant fileName == old(fileName) && closed == old(closed)
      {
        ghost var r := Render(old(StateOf()), calls[..i]);
        assert calls[..i + 1][..i] == calls[..i] && calls[..i + 1][i] == calls[i];
        assert AllSound(calls[..i + 1]);
        Apply(calls[i]);
        ghost var st := Step(r.0, calls[i]);
        assert out == old(out) + r.1 + st.1;
        assert Render(old(StateOf()), calls[..i + 1]).1 == r.1 + st.1;
        i := i + 1;
      }
      assert calls[..i] == calls;
    }
  }
}
