/**
 * Drawing a window through the painter_t function table: the title, the
 * legend, the grid and axis labels, and the data sets with their clipped
 * segments and marks. Every routine returns the calls it makes on the
 * painter, in order.
 */
module Draw {
  import opened GxTypes
  import opened Clipping
  import opened Windows
  import opened Grid
  import opened Numeric
  import Datasets

  // ---------------------------------------------------------------------
  // Flags and the world-to-pixel transform
  // ---------------------------------------------------------------------

  /** A tri-state flag as draw_data and draw_legend resolve it: TRUE, or DEFAULT with the global default. */
  predicate Resolve(flag: TriState, dflt: bool) {
    flag == On || (flag == Unset && dflt)
  }

  /** The flag read as a plain C condition: DEFAULT (-1) is nonzero, so true. */
  predicate Truthy(flag: TriState) {
    flag != Off
  }

  /** The visible world rectangle of a view, the rectangle C_CODE tests against. */
  function Box(v: View): WorldBox {
    WorldBox(v.worldOrgX, v.worldOrgY, v.worldOppX, v.worldOppY)
  }

  /** A view SCREENX, SCREENY and the clip loop can work with. */
  predicate Usable(v: View) {
    v.scaleX != 0.0 && v.scaleY != 0.0 && Ordered(Box(v))
  }

  lemma FittedUsable(v: View)
    requires Fitted(v)
    ensures Usable(v)
  {
  }

  /** The desired grid steps of a fitted view are positive multiples of its positive scales. */
  lemma FittedGridReady(v: View, m: Metrics, f: AxisFlags)
    requires Fitted(v)
    ensures GridReady(v, m, f)
  {
    MulNonNeg((m.axisPad + m.axisWidth * 7) as real, v.scaleX);
    MulNonNeg((m.axisPad + m.axisHeight) as real, v.scaleY);
  }

  lemma MulNonNeg(a: real, b: real)
    requires a >= 0.0 && b >= 0.0
    ensures a * b >= 0.0
  {
  }

  function ToScreen(v: View, s: Seg): Seg
    requires Usable(v)
  {
    Seg(ScreenX(v, s.x1), ScreenY(v, s.y1), ScreenX(v, s.x2), ScreenY(v, s.y2))
  }

  // ---------------------------------------------------------------------
  // gxgraph_draw_data
  // ---------------------------------------------------------------------

  /** The segment a draw point p after prev contributes: the clipped piece, in pixels. */
  function SegStep(v: View, prev: Point, p: Point): seq<Seg>
    requires Usable(v)
  {
    if p.op != Draw then []
    else
      var c := ClipSeg(Box(v), Seg(prev.x, prev.y, p.x, p.y));
      if c.Some? then [ToScreen(v, c.value)] else []
  }

  /** The segment batch of a data set: one clipped piece per draw point after the first point. */
  function SegmentsOf(v: View, pts: seq<Point>): seq<Seg>
    requires Usable(v)
    decreases |pts|
  {
    if |pts| <= 1 then []
    else SegmentsOf(v, pts[..|pts| - 1]) + SegStep(v, pts[|pts| - 2], pts[|pts| - 1])
  }

  /** The mark a point contributes: one when it lies in the closed visible rectangle. */
  function MarkStep(v: View, p: Point): seq<Mark>
    requires Usable(v)
  {
    if Inside(Box(v), p.x, p.y) then [Mark(ScreenX(v, p.x), ScreenY(v, p.y))] else []
  }

  /** The mark batch of a data set. */
  function MarksOf(v: View, pts: seq<Point>): seq<Mark>
    requires Usable(v)
    decreases |pts|
  {
    if pts == [] then [] else MarksOf(v, pts[..|pts| - 1]) + MarkStep(v, pts[|pts| - 1])
  }

  /** A point gives a mark exactly when its outcode is zero. */
  lemma MarkIffOutcodeZero(v: View, p: Point)
    requires Usable(v)
    ensures |MarkStep(v, p)| == 1 <==> !Any(Outcode(Box(v), p.x, p.y))
    ensures |MarkStep(v, p)| == 0 <==> Any(Outcode(Box(v), p.x, p.y))
  {
    OutcodeZeroIffInside(Box(v), p.x, p.y);
  }

  /** On a fitted view every mark lands inside the plot area. */
  lemma {:induction false} MarksInPlotArea(v: View, pts: seq<Point>)
    requires Fitted(v)
    ensures forall k :: 0 <= k < |MarksOf(v, pts)| ==>
      v.orgX <= MarksOf(v, pts)[k].x <= v.oppX && v.orgY <= MarksOf(v, pts)[k].y <= v.oppY
    decreases |pts|
  {
    if pts != [] {
      var p := pts[|pts| - 1];
      MarksInPlotArea(v, pts[..|pts| - 1]);
      if Inside(Box(v), p.x, p.y) {
        ScreenInside(v, p.x, p.y);
      }
    }
  }

  /** On a fitted view both ends of every drawn segment land inside the plot area. */
  lemma {:induction false} SegmentsInPlotArea(v: View, pts: seq<Point>)
    requires Fitted(v)
    ensures forall k :: 0 <= k < |SegmentsOf(v, pts)| ==> InPlotArea(v, SegmentsOf(v, pts)[k])
    decreases |pts|
  {
    if |pts| > 1 {
      SegmentsInPlotArea(v, pts[..|pts| - 1]);
      var prev, p := pts[|pts| - 2], pts[|pts| - 1];
      var s := Seg(prev.x, prev.y, p.x, p.y);
      if p.op == Draw && ClipSeg(Box(v), s).Some? {
        ClipResult(Box(v), s);
        var c := ClipSeg(Box(v), s).value;
        ScreenInside(v, c.x1, c.y1);
        ScreenInside(v, c.x2, c.y2);
      }
    }
  }

  predicate InPlotArea(v: View, s: Seg) {
    v.orgX <= s.x1 <= v.oppX && v.orgY <= s.y1 <= v.oppY &&
    v.orgX <= s.x2 <= v.oppX && v.orgY <= s.y2 <= v.oppY
  }

  /** The polyline through the draw points, unclipped: what a set wholly inside the view shows. */
  function Polyline(v: View, pts: seq<Point>): seq<Seg>
    requires Usable(v)
    decreases |pts|
  {
    if |pts| <= 1 then []
    else
      var prev, p := pts[|pts| - 2], pts[|pts| - 1];
      Polyline(v, pts[..|pts| - 1])
        + (if p.op == Draw then [ToScreen(v, Seg(prev.x, prev.y, p.x, p.y))] else [])
  }

  /** A data set lying wholly in the visible rectangle is drawn unclipped. */
  lemma {:induction false} InsideSetUnclipped(v: View, pts: seq<Point>)
    requires Usable(v) && forall k :: 0 <= k < |pts| ==> Inside(Box(v), pts[k].x, pts[k].y)
    ensures SegmentsOf(v, pts) == Polyline(v, pts)
    decreases |pts|
  {
    if |pts| > 1 {
      var init := pts[..|pts| - 1];
      assert forall k :: 0 <= k < |init| ==> init[k] == pts[k];
      InsideSetUnclipped(v, init);
      var prev, p := pts[|pts| - 2], pts[|pts| - 1];
      ClipAcceptsInside(Box(v), Seg(prev.x, prev.y, p.x, p.y));
    }
  }

  /** The clip loop of draw_data never adds more than one segment per point. */
  lemma {:induction false} SegmentsBound(v: View, pts: seq<Point>)
    requires Usable(v)
    ensures |SegmentsOf(v, pts)| <= |pts| - 1 || pts == []
    ensures |MarksOf(v, pts)| <= |pts|
    decreases |pts|
  {
    if pts != [] {
      SegmentsBound(v, pts[..|pts| - 1]);
    }
  }

  lemma SegmentsStep(v: View, pts: seq<Point>, i: nat)
    requires Usable(v) && 0 < i < |pts|
    ensures SegmentsOf(v, pts[..i + 1]) == SegmentsOf(v, pts[..i]) + SegStep(v, pts[i - 1], pts[i])
  {
    assert pts[..i + 1][..i] == pts[..i];
  }

  lemma MarksStep(v: View, pts: seq<Point>, i: nat)
    requires Usable(v) && 0 <= i < |pts|
    ensures MarksOf(v, pts[..i + 1]) == MarksOf(v, pts[..i]) + MarkStep(v, pts[i])
  {
    assert pts[..i + 1][..i] == pts[..i];
  }

  /**
   * The point loop of draw_data: the clip loop runs for each draw point
   * after the first when do_draw_lines is nonzero as a plain C value, and
   * every point of the closed visible rectangle adds a mark.
   */
  method Batches(v: View, pts: seq<Point>, computeLines: bool) returns (segs: seq<Seg>, marks: seq<Mark>)
    requires Usable(v)
    ensures segs == (if computeLines then SegmentsOf(v, pts) else [])
    ensures marks == MarksOf(v, pts)
  {
    segs, marks := [], [];
    if pts == [] {
      return;
    }
    var prev := pts[0];
    var i := 0;
    while i < |pts|
      invariant 0 <= i <= |pts|
      invariant i > 0 ==> prev == pts[i - 1]
      invariant segs == (if computeLines then SegmentsOf(v, pts[..i]) else [])
      invariant marks == MarksOf(v, pts[..i])
    {
      var p := pts[i];
      if computeLines && i > 0 {
        SegmentsStep(v, pts, i);
        if p.op == Draw {
          var c := ClipSegment(Box(v), Seg(prev.x, prev.y, p.x, p.y));
          if c.Some? {
            segs := segs + [ToScreen(v, c.value)];
          }
        }
      }
      if computeLines && i == 0 {
        assert pts[..1] == [pts[0]];
      }
      MarksStep(v, pts, i);
      if p.x >= v.worldOrgX && p.x <= v.worldOppX && p.y >= v.worldOrgY && p.y <= v.worldOppY {
        marks := marks + [Mark(ScreenX(v, p.x), ScreenY(v, p.y))];
      }
      prev := p;
      i := i + 1;
    }
    assert pts[..i] == pts;
  }

  /** The set_attributes call that starts each data set (and each legend line). */
  function StyleCall(d: Dataset): Call {
    SetAttributes(d.color, d.lineWidth, GDK_LINE_SOLID, d.markType, d.markSize, d.markSize)
  }

  /** The calls draw_data makes for one data set. */
  function DatasetCalls(v: View, d: Dataset, defaultLines: bool, defaultMarks: bool): seq<Call>
    requires Usable(v)
  {
    Grouped(StyleCall(d), DrawSegments(SegmentsOf(v, d.points)), DrawMarks(MarksOf(v, d.points)),
            Resolve(d.doDrawLines, defaultLines), Resolve(d.doDrawMarks, defaultMarks))
  }

  /**
   * The group structure of one data set's drawing: the style, then the
   * segments in group "lines" and the marks in group "marks", both inside
   * "lines_marks" when both are drawn.
   */
  function Grouped(style: Call, segCall: Call, markCall: Call, lines: bool, marks: bool): seq<Call> {
    [style]
    + (if lines && marks then [GroupStart("lines_marks")] else [])
    + (if lines then [GroupStart("lines"), segCall, GroupEnd("lines")] else [])
    + (if marks then [GroupStart("marks"), markCall, GroupEnd("marks")] else [])
    + (if lines && marks then [GroupEnd("lines_marks")] else [])
  }

  /** The calls draw_data makes for a list of data sets. */
  function DataCalls(v: View, ds: seq<Dataset>, defaultLines: bool, defaultMarks: bool): seq<Call>
    requires Usable(v)
    decreases |ds|
  {
    if ds == [] then []
    else DataCalls(v, ds[..|ds| - 1], defaultLines, defaultMarks) + DatasetCalls(v, ds[|ds| - 1], defaultLines, defaultMarks)
  }

  lemma PlainBalanced(c: Call)
    requires !c.GroupStart? && !c.GroupEnd?
    ensures Balanced([c])
  {
  }

  /** One data set's groups pair up, whichever flags are on. */
  lemma DatasetCallsBalanced(v: View, d: Dataset, defaultLines: bool, defaultMarks: bool)
    requires Usable(v)
    ensures Balanced(DatasetCalls(v, d, defaultLines, defaultMarks))
  {
    GroupedBalanced(StyleCall(d), DrawSegments(SegmentsOf(v, d.points)), DrawMarks(MarksOf(v, d.points)),
                    Resolve(d.doDrawLines, defaultLines), Resolve(d.doDrawMarks, defaultMarks));
  }

  lemma GroupedBalanced(style: Call, segCall: Call, markCall: Call, lines: bool, marks: bool)
    requires !style.GroupStart? && !style.GroupEnd?
    requires !segCall.GroupStart? && !segCall.GroupEnd? && !markCall.GroupStart? && !markCall.GroupEnd?
    ensures Balanced(Grouped(style, segCall, markCall, lines, marks))
  {
    var L := [GroupStart("lines"), segCall, GroupEnd("lines")];
    var M := [GroupStart("marks"), markCall, GroupEnd("marks")];
    PlainBalanced(style);
    PlainBalanced(segCall);
    PlainBalanced(markCall);
    BalancedWrap("lines", [segCall]);
    BalancedWrap("marks", [markCall]);
    assert [GroupStart("lines")] + [segCall] + [GroupEnd("lines")] == L;
    assert [GroupStart("marks")] + [markCall] + [GroupEnd("marks")] == M;
    var calls := Grouped(style, segCall, markCall, lines, marks);
    if lines && marks {
      BalancedConcat(L, M);
      BalancedWrap("lines_marks", L + M);
      assert calls == [style] + ([GroupStart("lines_marks")] + (L + M) + [GroupEnd("lines_marks")]);
      BalancedConcat([style], [GroupStart("lines_marks")] + (L + M) + [GroupEnd("lines_marks")]);
    } else if lines {
      assert calls == [style] + L;
      BalancedConcat([style], L);
    } else if marks {
      assert calls == [style] + M;
      BalancedConcat([style], M);
    } else {
      assert calls == [style];
    }
  }

  /** draw_data makes no style-preset or text call. */
  lemma DatasetCallsSound(v: View, d: Dataset, defaultLines: bool, defaultMarks: bool)
    requires Usable(v)
    ensures AllSound(DatasetCalls(v, d, defaultLines, defaultMarks))
  {
    var calls := DatasetCalls(v, d, defaultLines, defaultMarks);
    forall i | 0 <= i < |calls|
      ensures !calls[i].SetAttributesStyle? && !calls[i].DrawText?
    {
    }
  }

  /** All group_start / group_end calls of draw_data pair up. */
  lemma {:induction false} DataCallsBalanced(v: View, ds: seq<Dataset>, defaultLines: bool, defaultMarks: bool)
    requires Usable(v)
    ensures Balanced(DataCalls(v, ds, defaultLines, defaultMarks))
    ensures AllSound(DataCalls(v, ds, defaultLines, defaultMarks))
    decreases |ds|
  {
    if ds != [] {
      DataCallsBalanced(v, ds[..|ds| - 1], defaultLines, defaultMarks);
      DatasetCallsBalanced(v, ds[|ds| - 1], defaultLines, defaultMarks);
      BalancedConcat(DataCalls(v, ds[..|ds| - 1], defaultLines, defaultMarks),
                     DatasetCalls(v, ds[|ds| - 1], defaultLines, defaultMarks));
      DatasetCallsSound(v, ds[|ds| - 1], defaultLines, defaultMarks);
      AllSoundConcat(DataCalls(v, ds[..|ds| - 1], defaultLines, defaultMarks),
                     DatasetCalls(v, ds[|ds| - 1], defaultLines, defaultMarks));
    }
  }

  /** gxgraph_draw_data for one data set. */
  method DrawDataset(v: View, d: Dataset, defaultLines: bool, defaultMarks: bool) returns (calls: seq<Call>)
    requires Usable(v)
    ensures calls == DatasetCalls(v, d, defaultLines, defaultMarks)
  {
    var doDrawLines := d.doDrawLines == On || (d.doDrawLines == Unset && defaultLines);
    var doDrawMarks := d.doDrawMarks == On || (d.doDrawMarks == Unset && defaultMarks);
    var style := SetAttributes(d.color, d.lineWidth, GDK_LINE_SOLID, d.markType, d.markSize * 1.0, d.markSize * 1.0);
    var segs, marks := Batches(v, d.points, Truthy(d.doDrawLines));
    var open, lineCalls, markCalls, close := [], [], [], [];
    if doDrawLines && doDrawMarks {
      open := [GroupStart("lines_marks")];
    }
    if doDrawLines {
      lineCalls := [GroupStart("lines"), DrawSegments(segs), GroupEnd("lines")];
    }
    if doDrawMarks {
      markCalls := [GroupStart("marks"), DrawMarks(marks), GroupEnd("marks")];
    }
    if doDrawLines && doDrawMarks {
      close := [GroupEnd("lines_marks")];
    }
    calls := [style] + open + lineCalls + markCalls + close;
  }

  /** gxgraph_draw_data: every data set of the window, in list order. */
  method DrawData(v: View, ds: seq<Dataset>, defaultLines: bool, defaultMarks: bool) returns (calls: seq<Call>)
    requires Usable(v)
    ensures calls == DataCalls(v, ds, defaultLines, defaultMarks)
    ensures Balanced(calls) && AllSound(calls)
  {
    calls := [];
    var i := 0;
    while i < |ds|
      invariant 0 <= i <= |ds| && calls == DataCalls(v, ds[..i], defaultLines, defaultMarks)
    {
      assert ds[..i + 1][..i] == ds[..i];
      var one := DrawDataset(v, ds[i], defaultLines, defaultMarks);
      calls := calls + one;
      i := i + 1;
    }
    assert ds[..i] == ds;
    DataCallsBalanced(v, ds, defaultLines, defaultMarks);
  }

  // ---------------------------------------------------------------------
  // gxgraph_draw_legend
  // ---------------------------------------------------------------------

  /** How far spot advances for each legend entry. */
  function LegendStep(m: Metrics): nat {
    2 + m.axisHeight + m.bdrPad
  }

  /** The spot of the k-th drawn entry. */
  function Spot(orgY: int, m: Metrics, k: nat): int {
    orgY + k * LegendStep(m)
  }

  lemma SpotNext(orgY: int, m: Metrics, k: nat)
    ensures Spot(orgY, m, k + 1) == Spot(orgY, m, k) + LegendStep(m)
  {
  }

  /** The legend test: an entry at spot still fits above the bottom of the plot area. */
  predicate Fits(orgY: int, m: Metrics, oppY: real, k: nat) {
    ((Spot(orgY, m, k) + m.axisHeight + 2) as real) < oppY
  }

  /** How many of the first t data sets the legend draws. */
  function LegendCount(orgY: int, m: Metrics, oppY: real, t: nat): (n: nat)
    ensures n <= t
  {
    if t == 0 then 0
    else
      var n := LegendCount(orgY, m, oppY, t - 1);
      if n == t - 1 && Fits(orgY, m, oppY, n) then t else n
  }

  /**
   * The legend draws exactly the data sets before the first one that does
   * not fit: all entries it draws fit, and the one after them does not.
   */
  lemma {:induction false} LegendSelection(orgY: int, m: Metrics, oppY: real, t: nat)
    ensures var n := LegendCount(orgY, m, oppY, t);
      (forall k :: 0 <= k < n ==> Fits(orgY, m, oppY, k)) && (n < t ==> !Fits(orgY, m, oppY, n))
  {
    if t > 0 {
      LegendSelection(orgY, m, oppY, t - 1);
    }
  }

  /** After the first miss, no later data set is drawn. */
  lemma {:induction false} LegendStopsAtMiss(orgY: int, m: Metrics, oppY: real, t: nat, u: nat)
    requires t <= u && LegendCount(orgY, m, oppY, t) < t
    ensures LegendCount(orgY, m, oppY, u) == LegendCount(orgY, m, oppY, t)
    decreases u - t
  {
    if u > t {
      LegendStopsAtMiss(orgY, m, oppY, t, u - 1);
    }
  }

  predicate Named(ds: seq<Dataset>) {
    forall i :: 0 <= i < |ds| ==> ds[i].setName.Some?
  }

  /** The first pass: each set's name at the right of the plot area, one entry below the other. */
  function LegendTexts(orgY: int, oppX: real, m: Metrics, ds: seq<Dataset>): seq<Call>
    requires Named(ds)
    decreases |ds|
  {
    if ds == [] then []
    else
      var k := |ds| - 1;
      LegendTexts(orgY, oppX, m, ds[..k])
        + [DrawText(oppX + m.bdrPad as real, (Spot(orgY, m, k) + 1) as real, ds[k].setName.value, T_UPPERLEFT, T_AXIS)]
  }

  /** The second pass: each set's style, its sample line and, if it draws marks, one mark. */
  function LegendLines(orgY: int, oppX: real, m: Metrics, lineLen: int, ds: seq<Dataset>, defaultMarks: bool): seq<Call>
    decreases |ds|
  {
    if ds == [] then []
    else
      var k := |ds| - 1;
      LegendLines(orgY, oppX, m, lineLen, ds[..k], defaultMarks)
        + LegendEntry(orgY, oppX, m, lineLen, k, ds[k], defaultMarks)
  }

  function LegendEntry(orgY: int, oppX: real, m: Metrics, lineLen: int, k: nat, d: Dataset, defaultMarks: bool): seq<Call> {
    var x1 := oppX + m.bdrPad as real;
    var y := (Spot(orgY, m, k) - m.legendPad) as real;
    [StyleCall(d), DrawLine(x1, y, x1 + lineLen as real, y)]
      + (if Resolve(d.doDrawMarks, defaultMarks) then [DrawMarks([Mark(x1, y)])] else [])
  }

  /** The calls of gxgraph_draw_legend: both passes over the same selected prefix of the sets. */
  function LegendCalls(orgY: int, oppX: real, oppY: real, m: Metrics, ds: seq<Dataset>, defaultMarks: bool): seq<Call>
    requires Named(ds)
  {
    var n := LegendCount(orgY, m, oppY, |ds|);
    var shown := ds[..n];
    LegendTexts(orgY, oppX, m, shown) + LegendLines(orgY, oppX, m, MaxNameLen(shown) * m.axisWidth, shown, defaultMarks)
  }

  lemma {:induction false} LegendLinesNoGroups(orgY: int, oppX: real, m: Metrics, lineLen: int, ds: seq<Dataset>, defaultMarks: bool)
    ensures NoGroupCalls(LegendLines(orgY, oppX, m, lineLen, ds, defaultMarks))
    ensures AllSound(LegendLines(orgY, oppX, m, lineLen, ds, defaultMarks))
    decreases |ds|
  {
    if ds != [] {
      LegendLinesNoGroups(orgY, oppX, m, lineLen, ds[..|ds| - 1], defaultMarks);
      AllSoundConcat(LegendLines(orgY, oppX, m, lineLen, ds[..|ds| - 1], defaultMarks),
        LegendEntry(orgY, oppX, m, lineLen, |ds| - 1, ds[|ds| - 1], defaultMarks));
    }
  }

  lemma {:induction false} LegendTextsNoGroups(orgY: int, oppX: real, m: Metrics, ds: seq<Dataset>)
    requires Named(ds)
    ensures NoGroupCalls(LegendTexts(orgY, oppX, m, ds))
    ensures AllSound(LegendTexts(orgY, oppX, m, ds))
    ensures |LegendTexts(orgY, oppX, m, ds)| == |ds|
    decreases |ds|
  {
    if ds != [] {
      LegendTextsNoGroups(orgY, oppX, m, ds[..|ds| - 1]);
      AllSoundConcat(LegendTexts(orgY, oppX, m, ds[..|ds| - 1]),
        [DrawText(oppX + m.bdrPad as real, (Spot(orgY, m, |ds| - 1) + 1) as real, ds[|ds| - 1].setName.value, T_UPPERLEFT, T_AXIS)]);
    }
  }

  /** The legend opens no group; each drawn name sits where its entry fits. */
  lemma LegendShape(orgY: int, oppX: real, oppY: real, m: Metrics, ds: seq<Dataset>, defaultMarks: bool)
    requires Named(ds)
    ensures Balanced(LegendCalls(orgY, oppX, oppY, m, ds, defaultMarks))
    ensures AllSound(LegendCalls(orgY, oppX, oppY, m, ds, defaultMarks))
    ensures var n := LegendCount(orgY, m, oppY, |ds|);
      forall k :: 0 <= k < n ==> ((Spot(orgY, m, k) + m.axisHeight + 2) as real) < oppY
  {
    LegendSound(orgY, oppX, oppY, m, ds, defaultMarks);
    LegendSelection(orgY, m, oppY, |ds|);
    var n := LegendCount(orgY, m, oppY, |ds|);
    forall k | 0 <= k < n
      ensures ((Spot(orgY, m, k) + m.axisHeight + 2) as real) < oppY
    {
      assert Fits(orgY, m, oppY, k);
    }
  }

  lemma LegendSound(orgY: int, oppX: real, oppY: real, m: Metrics, ds: seq<Dataset>, defaultMarks: bool)
    requires Named(ds)
    ensures Balanced(LegendCalls(orgY, oppX, oppY, m, ds, defaultMarks))
    ensures AllSound(LegendCalls(orgY, oppX, oppY, m, ds, defaultMarks))
  {
    var n := LegendCount(orgY, m, oppY, |ds|);
    var shown := ds[..n];
    var texts := LegendTexts(orgY, oppX, m, shown);
    var lines := LegendLines(orgY, oppX, m, MaxNameLen(shown) * m.axisWidth, shown, defaultMarks);
    assert LegendCalls(orgY, oppX, oppY, m, ds, defaultMarks) == texts + lines;
    LegendTextsNoGroups(orgY, oppX, m, shown);
    LegendLinesNoGroups(orgY, oppX, m, MaxNameLen(shown) * m.axisWidth, shown, defaultMarks);
    NoGroupCallsConcat(texts, lines);
    NoGroupCallsKeepDepth(0, texts + lines);
    AllSoundConcat(texts, lines);
  }

  /** The first pass of draw_legend, which also finds the longest drawn name. */
  method LegendTextPass(orgY: int, oppX: real, oppY: real, m: Metrics, ds: seq<Dataset>)
      returns (calls: seq<Call>, lineLen: int)
    requires Named(ds)
    ensures var shown := ds[..LegendCount(orgY, m, oppY, |ds|)];
      calls == LegendTexts(orgY, oppX, m, shown) && lineLen == MaxNameLen(shown) * m.axisWidth
  {
    var spot := orgY;
    lineLen := 0;
    calls := [];
    var i := 0;
    ghost var k := 0;
    while i < |ds|
      invariant 0 <= i <= |ds| && k == LegendCount(orgY, m, oppY, i) && spot == Spot(orgY, m, k)
      invariant calls == LegendTexts(orgY, oppX, m, ds[..k]) && lineLen == MaxNameLen(ds[..k])
    {
      LegendSelection(orgY, m, oppY, i);
      if ((spot + m.axisHeight + 2) as real) < oppY {
        assert k == i;
        assert ds[..k + 1][..k] == ds[..k];
        var oneLen := |ds[i].setName.value|;
        if oneLen > lineLen {
          lineLen := oneLen;
        }
        calls := calls + [DrawText(oppX + m.bdrPad as real, (spot + 1) as real, ds[i].setName.value, T_UPPERLEFT, T_AXIS)];
        SpotNext(orgY, m, k);
        spot := spot + 2 + m.axisHeight + m.bdrPad;
        k := k + 1;
      }
      i := i + 1;
    }
    lineLen := lineLen * m.axisWidth;
  }

  /** The second pass of draw_legend. */
  method LegendLinePass(orgY: int, oppX: real, oppY: real, m: Metrics, lineLen: int, ds: seq<Dataset>, defaultMarks: bool)
      returns (calls: seq<Call>)
    ensures calls == LegendLines(orgY, oppX, m, lineLen, ds[..LegendCount(orgY, m, oppY, |ds|)], defaultMarks)
  {
    var legLineX1 := oppX + m.bdrPad as real;
    var legLineX2 := legLineX1 + lineLen as real;
    var spot := orgY;
    calls := [];
    var i := 0;
    ghost var k := 0;
    while i < |ds|
      invariant 0 <= i <= |ds| && k == LegendCount(orgY, m, oppY, i) && spot == Spot(orgY, m, k)
      invariant calls == LegendLines(orgY, oppX, m, lineLen, ds[..k], defaultMarks)
    {
      LegendSelection(orgY, m, oppY, i);
      if ((spot + m.axisHeight + 2) as real) < oppY {
        assert k == i;
        assert ds[..k + 1][..k] == ds[..k];
        var d := ds[i];
        var legLineY := (spot - m.legendPad) as real;
        calls := calls + [SetAttributes(d.color, d.lineWidth, GDK_LINE_SOLID, d.markType, d.markSize * 1.0, d.markSize * 1.0)];
        calls := calls + [DrawLine(legLineX1, legLineY, legLineX2, legLineY)];
        if d.doDrawMarks == On || (d.doDrawMarks == Unset && defaultMarks) {
          calls := calls + [DrawMarks([Mark(legLineX1, legLineY)])];
        }
        SpotNext(orgY, m, k);
        spot := spot + 2 + m.axisHeight + m.bdrPad;
        k := k + 1;
      }
      i := i + 1;
    }
  }

  /** gxgraph_draw_legend. orgY is window->org_y, which compute_transform sets to a whole number. */
  method DrawLegend(orgY: int, oppX: real, oppY: real, m: Metrics, ds: seq<Dataset>, defaultMarks: bool)
      returns (calls: seq<Call>)
    requires Named(ds)
    ensures calls == LegendCalls(orgY, oppX, oppY, m, ds, defaultMarks)
  {
    var texts, lineLen := LegendTextPass(orgY, oppX, oppY, m, ds);
    var lines := LegendLinePass(orgY, oppX, oppY, m, lineLen, ds, defaultMarks);
    calls := texts + lines;
  }

  // ---------------------------------------------------------------------
  // gxgraph_draw_title and gxgraph_draw_grid_and_axis
  // ---------------------------------------------------------------------

  /** gxgraph_draw_title: the title centred at the top, in whole-pixel halves and quarters. */
  function TitleCall(m: Metrics, title: string): (c: Call)
    ensures c.DrawText? && c.just == T_TOP && c.style == T_TITLE && c.text == title
    ensures c.x <= m.areaW as real / 2.0 < c.x + 1.0
  {
    DrawText((m.areaW / 2) as real, (m.axisPad / 4) as real, title, T_TOP, T_TITLE)
  }

  /** "%d" of an int. */
  function IntString(n: int): string {
    if n < 0 then "-" + Datasets.DecimalString(-n) else Datasets.DecimalString(n)
  }

  /** The axis-unit labels, with the factored-out power of ten when there is one. */
  function UnitLabels(m: Metrics, oppY: real, xUnit: string, yUnit: string, expX: int, expY: int): seq<Call> {
    var yPart :=
      if expY != 0 then
        var xSpot := (|yUnit| + 7) * m.axisWidth;
        var ySpot := m.bdrPad * 2 + m.titleHeight + m.axisHeight / 2;
        [DrawText(xSpot as real, ySpot as real, yUnit + " x 10", T_RIGHT, T_AXIS),
         DrawText(xSpot as real, ySpot as real, IntString(expY), T_LOWERLEFT, T_AXIS)]
      else
        [DrawText(m.bdrPad as real, (m.bdrPad * 2 + m.titleHeight) as real, yUnit, T_UPPERLEFT, T_AXIS)];
    var startX := m.areaW - m.bdrPad;
    var xPart :=
      if expX != 0 then
        var power := IntString(expX);
        var sx := startX - |power| * m.axisWidth;
        [DrawText(sx as real, oppY, power, T_LOWERLEFT, T_AXIS),
         DrawText(sx as real, oppY, xUnit + " x 10", T_RIGHT, T_AXIS)]
      else
        [DrawText(startX as real, oppY, xUnit, T_RIGHT, T_AXIS)];
    yPart + xPart
  }

  /** One label per grid value; Yspot and Xspot are ints, so the pixel position is truncated. */
  function YLabels(v: View, m: Metrics, ys: seq<real>, expY: int, logY: bool,
                   writeValue: (real, int, int, bool) -> string): seq<Call>
    requires Usable(v)
    decreases |ys|
  {
    if ys == [] then []
    else
      var y := ys[|ys| - 1];
      YLabels(v, m, ys[..|ys| - 1], expY, logY, writeValue)
        + [DrawText((m.bdrPad + 7 * m.axisWidth) as real, Trunc(ScreenY(v, y)) as real,
                    writeValue(y, expY, 1, logY), T_RIGHT, T_AXIS)]
  }

  function XLabels(v: View, m: Metrics, xs: seq<real>, expX: int, logX: bool,
                   writeValue: (real, int, int, bool) -> string): seq<Call>
    requires Usable(v)
    decreases |xs|
  {
    if xs == [] then []
    else
      var x := xs[|xs| - 1];
      XLabels(v, m, xs[..|xs| - 1], expX, logX, writeValue)
        + [DrawText(Trunc(ScreenX(v, x)) as real, (m.areaH - m.bdrPad) as real,
                    writeValue(x, expX, 0, logX), T_BOTTOM, T_AXIS)]
  }

  /** A horizontal grid line (or pair of ticks) at grid value y, styled as zero line or grid line. */
  function YLine(v: View, m: Metrics, w: World, y: real, logY: bool, ticks: bool): seq<Call>
    requires Usable(v)
  {
    var sy := Trunc(ScreenY(v, y)) as real;
    [SetAttributesStyle(GridRole(y, w.y0, w.y1, logY))]
      + (if ticks then [DrawLine(v.orgX, sy, v.orgX + m.tickLen as real, sy),
                        DrawLine(v.oppX - m.tickLen as real, sy, v.oppX, sy)]
         else [DrawLine(v.orgX, sy, v.oppX, sy)])
  }

  function XLine(v: View, m: Metrics, w: World, x: real, logX: bool, ticks: bool): seq<Call>
    requires Usable(v)
  {
    var sx := Trunc(ScreenX(v, x)) as real;
    [SetAttributesStyle(GridRole(x, w.x0, w.x1, logX))]
      + (if ticks then [DrawLine(sx, v.orgY, sx, v.orgY + m.tickLen as real),
                        DrawLine(sx, v.oppY - m.tickLen as real, sx, v.oppY)]
         else [DrawLine(sx, v.orgY, sx, v.oppY)])
  }

  function YLines(v: View, m: Metrics, w: World, ys: seq<real>, logY: bool, ticks: bool): seq<Call>
    requires Usable(v)
    decreases |ys|
  {
    if ys == [] then [] else YLines(v, m, w, ys[..|ys| - 1], logY, ticks) + YLine(v, m, w, ys[|ys| - 1], logY, ticks)
  }

  function XLines(v: View, m: Metrics, w: World, xs: seq<real>, logX: bool, ticks: bool): seq<Call>
    requires Usable(v)
    decreases |xs|
  {
    if xs == [] then [] else XLines(v, m, w, xs[..|xs| - 1], logX, ticks) + XLine(v, m, w, xs[|xs| - 1], logX, ticks)
  }

  /** The optional frame around the plot area, drawn clockwise from the top-left corner. */
  function BoxLines(v: View, boundingBox: bool): seq<Call> {
    if boundingBox then
      [DrawLine(v.orgX, v.orgY, v.oppX, v.orgY), DrawLine(v.oppX, v.orgY, v.oppX, v.oppY),
       DrawLine(v.oppX, v.oppY, v.orgX, v.oppY), DrawLine(v.orgX, v.oppY, v.orgX, v.orgY)]
    else []
  }

  /** The axis settings draw_grid_and_axis reads from the command line. */
  datatype AxisFlags = AxisFlags(logX: bool, logY: bool, ticks: bool, boundingBox: bool)

  /**
   * The calls of gxgraph_draw_grid_and_axis, given the values init_grid /
   * step_grid produce below the far world bound on each axis (ys for the
   * y axis, xs for the x axis) and the exponents of the larger world bound.
   */
  function GridCalls(v: View, m: Metrics, w: World, f: AxisFlags, xUnit: string, yUnit: string,
                     expX: int, expY: int, xs: seq<real>, ys: seq<real>,
                     writeValue: (real, int, int, bool) -> string): seq<Call>
    requires Usable(v)
  {
    [GroupStart("grid")] + GridBody(v, m, w, f, xUnit, yUnit, expX, expY, xs, ys, writeValue) + [GroupEnd("grid")]
  }

  /** What draw_grid_and_axis draws inside its "grid" group. */
  function GridBody(v: View, m: Metrics, w: World, f: AxisFlags, xUnit: string, yUnit: string,
                    expX: int, expY: int, xs: seq<real>, ys: seq<real>,
                    writeValue: (real, int, int, bool) -> string): seq<Call>
    requires Usable(v)
  {
    [SetAttributesStyle(L_AXIS)]
      + UnitLabels(m, v.oppY, xUnit, yUnit, expX, expY)
      + YLabels(v, m, ys, expY, f.logY, writeValue)
      + XLabels(v, m, xs, expX, f.logX, writeValue)
      + YLines(v, m, w, ys, f.logY, f.ticks)
      + XLines(v, m, w, xs, f.logX, f.ticks)
      + BoxLines(v, f.boundingBox)
  }

  lemma {:induction false} YLabelsNoGroups(v: View, m: Metrics, ys: seq<real>, expY: int, logY: bool,
                                           writeValue: (real, int, int, bool) -> string)
    requires Usable(v)
    ensures NoGroupCalls(YLabels(v, m, ys, expY, logY, writeValue))
    ensures AllSound(YLabels(v, m, ys, expY, logY, writeValue))
    decreases |ys|
  {
    if ys != [] {
      YLabelsNoGroups(v, m, ys[..|ys| - 1], expY, logY, writeValue);
      AllSoundConcat(YLabels(v, m, ys[..|ys| - 1], expY, logY, writeValue),
        [DrawText((m.bdrPad + 7 * m.axisWidth) as real, Trunc(ScreenY(v, ys[|ys| - 1])) as real, writeValue(ys[|ys| - 1], expY, 1, logY), T_RIGHT, T_AXIS)]);
    }
  }

  lemma {:induction false} XLabelsNoGroups(v: View, m: Metrics, xs: seq<real>, expX: int, logX: bool,
                                           writeValue: (real, int, int, bool) -> string)
    requires Usable(v)
    ensures NoGroupCalls(XLabels(v, m, xs, expX, logX, writeValue))
    ensures AllSound(XLabels(v, m, xs, expX, logX, writeValue))
    decreases |xs|
  {
    if xs != [] {
      XLabelsNoGroups(v, m, xs[..|xs| - 1], expX, logX, writeValue);
      AllSoundConcat(XLabels(v, m, xs[..|xs| - 1], expX, logX, writeValue),
        [DrawText(Trunc(ScreenX(v, xs[|xs| - 1])) as real, (m.areaH - m.bdrPad) as real, writeValue(xs[|xs| - 1], expX, 0, logX), T_BOTTOM, T_AXIS)]);
    }
  }

  lemma {:induction false} YLinesNoGroups(v: View, m: Metrics, w: World, ys: seq<real>, logY: bool, ticks: bool)
    requires Usable(v)
    ensures NoGroupCalls(YLines(v, m, w, ys, logY, ticks))
    ensures AllSound(YLines(v, m, w, ys, logY, ticks))
    decreases |ys|
  {
    if ys != [] {
      YLinesNoGroups(v, m, w, ys[..|ys| - 1], logY, ticks);
      AllSoundConcat(YLines(v, m, w, ys[..|ys| - 1], logY, ticks),
        YLine(v, m, w, ys[|ys| - 1], logY, ticks));
    }
  }

  lemma {:induction false} XLinesNoGroups(v: View, m: Metrics, w: World, xs: seq<real>, logX: bool, ticks: bool)
    requires Usable(v)
    ensures NoGroupCalls(XLines(v, m, w, xs, logX, ticks))
    ensures AllSound(XLines(v, m, w, xs, logX, ticks))
    decreases |xs|
  {
    if xs != [] {
      XLinesNoGroups(v, m, w, xs[..|xs| - 1], logX, ticks);
      AllSoundConcat(XLines(v, m, w, xs[..|xs| - 1], logX, ticks),
        XLine(v, m, w, xs[|xs| - 1], logX, ticks));
    }
  }

  /** Every grid line of a linear axis is styled as the zero line exactly when it is within 1e-7 of the span from 0. */
  lemma {:induction false} YLinesRoles(v: View, m: Metrics, w: World, ys: seq<real>, ticks: bool)
    requires Usable(v)
    ensures var calls := YLines(v, m, w, ys, false, ticks);
      forall k :: 0 <= k < |calls| && calls[k].SetAttributesStyle? ==>
        (calls[k].style == L_ZERO || calls[k].style == L_GRID)
    ensures |YLines(v, m, w, ys, false, ticks)| == |ys| * (if ticks then 3 else 2)
    decreases |ys|
  {
    if ys != [] {
      YLinesRoles(v, m, w, ys[..|ys| - 1], ticks);
    }
  }

  /** The group_start("grid") of draw_grid_and_axis is matched by its group_end. */
  lemma GridCallsBalanced(v: View, m: Metrics, w: World, f: AxisFlags, xUnit: string, yUnit: string,
                          expX: int, expY: int, xs: seq<real>, ys: seq<real>,
                          writeValue: (real, int, int, bool) -> string)
    requires Usable(v)
    ensures Balanced(GridCalls(v, m, w, f, xUnit, yUnit, expX, expY, xs, ys, writeValue))
    ensures AllSound(GridCalls(v, m, w, f, xUnit, yUnit, expX, expY, xs, ys, writeValue))
  {
    var u := UnitLabels(m, v.oppY, xUnit, yUnit, expX, expY);
    var yl := YLabels(v, m, ys, expY, f.logY, writeValue);
    var xl := XLabels(v, m, xs, expX, f.logX, writeValue);
    var yg := YLines(v, m, w, ys, f.logY, f.ticks);
    var xg := XLines(v, m, w, xs, f.logX, f.ticks);
    var bx := BoxLines(v, f.boundingBox);
    var body := [SetAttributesStyle(L_AXIS)] + u + yl + xl + yg + xg + bx;
    FixedPartsNoGroups(m, v, xUnit, yUnit, expX, expY, f.boundingBox);
    YLabelsNoGroups(v, m, ys, expY, f.logY, writeValue);
    XLabelsNoGroups(v, m, xs, expX, f.logX, writeValue);
    YLinesNoGroups(v, m, w, ys, f.logY, f.ticks);
    XLinesNoGroups(v, m, w, xs, f.logX, f.ticks);
    NoGroupsConcat7([SetAttributesStyle(L_AXIS)], u, yl, xl, yg, xg, bx);
    AllSoundConcat7([SetAttributesStyle(L_AXIS)], u, yl, xl, yg, xg, bx);
    AllSoundConcat([GroupStart("grid")], body);
    AllSoundConcat([GroupStart("grid")] + body, [GroupEnd("grid")]);
    NoGroupCallsKeepDepth(0, body);
    BalancedWrap("grid", body);
  }

  lemma FixedPartsNoGroups(m: Metrics, v: View, xUnit: string, yUnit: string, expX: int, expY: int, boundingBox: bool)
    ensures NoGroupCalls([SetAttributesStyle(L_AXIS)])
    ensures NoGroupCalls(UnitLabels(m, v.oppY, xUnit, yUnit, expX, expY))
    ensures NoGroupCalls(BoxLines(v, boundingBox))
    ensures AllSound([SetAttributesStyle(L_AXIS)])
    ensures AllSound(UnitLabels(m, v.oppY, xUnit, yUnit, expX, expY))
    ensures AllSound(BoxLines(v, boundingBox))
  {
  }

  lemma NoGroupsConcat(a: seq<Call>, b: seq<Call>)
    requires NoGroupCalls(a) && NoGroupCalls(b)
    ensures NoGroupCalls(a + b)
  {
    assert forall i :: 0 <= i < |a| ==> (a + b)[i] == a[i];
    assert forall i :: |a| <= i < |a + b| ==> (a + b)[i] == b[i - |a|];
  }

  lemma NoGroupsConcat7(a: seq<Call>, b: seq<Call>, c: seq<Call>, d: seq<Call>, e: seq<Call>, f: seq<Call>, g: seq<Call>)
    requires NoGroupCalls(a) && NoGroupCalls(b) && NoGroupCalls(c) && NoGroupCalls(d)
    requires NoGroupCalls(e) && NoGroupCalls(f) && NoGroupCalls(g)
    ensures NoGroupCalls(a + b + c + d + e + f + g)
  {
    NoGroupsConcat(a, b);
    NoGroupsConcat(a + b, c);
    NoGroupsConcat(a + b + c, d);
    NoGroupsConcat(a + b + c + d, e);
    NoGroupsConcat(a + b + c + d + e, f);
    NoGroupsConcat(a + b + c + d + e + f, g);
  }

  lemma AllSoundConcat7(a: seq<Call>, b: seq<Call>, c: seq<Call>, d: seq<Call>, e: seq<Call>, f: seq<Call>, g: seq<Call>)
    requires AllSound(a) && AllSound(b) && AllSound(c) && AllSound(d)
    requires AllSound(e) && AllSound(f) && AllSound(g)
    ensures AllSound(a + b + c + d + e + f + g)
  {
    AllSoundConcat(a, b);
    AllSoundConcat(a + b, c);
    AllSoundConcat(a + b + c, d);
    AllSoundConcat(a + b + c + d, e);
    AllSoundConcat(a + b + c + d + e, f);
    AllSoundConcat(a + b + c + d + e + f, g);
  }

  /** The horizontal grid-line loop of draw_grid_and_axis. */
  method DrawYLines(v: View, m: Metrics, w: World, ys: seq<real>, logY: bool, ticks: bool) returns (calls: seq<Call>)
    requires Usable(v)
    ensures calls == YLines(v, m, w, ys, logY, ticks)
  {
    calls := [];
    var i := 0;
    while i < |ys|
      invariant 0 <= i <= |ys| && calls == YLines(v, m, w, ys[..i], logY, ticks)
    {
      assert ys[..i + 1][..i] == ys[..i];
      var yIndex := ys[i];
      var ySpot := Trunc(ScreenY(v, yIndex));
      var sy := ySpot as real;
      var sx1, sx2, sx3, sx4;
      if ticks {
        sx1, sx2, sx3, sx4 := v.orgX, v.orgX + m.tickLen as real, v.oppX - m.tickLen as real, v.oppX;
      } else {
        sx1, sx2 := v.orgX, v.oppX;
      }
      if Abs(yIndex) < ZERO_THRESH * (w.y1 - w.y0) && !logY {
        calls := calls + [SetAttributesStyle(L_ZERO)];
      } else {
        calls := calls + [SetAttributesStyle(L_GRID)];
      }
      calls := calls + [DrawLine(sx1, sy, sx2, sy)];
      if ticks {
        calls := calls + [DrawLine(sx3, sy, sx4, sy)];
      }
      i := i + 1;
    }
    assert ys[..i] == ys;
  }

  /** The vertical grid-line loop of draw_grid_and_axis. */
  method DrawXLines(v: View, m: Metrics, w: World, xs: seq<real>, logX: bool, ticks: bool) returns (calls: seq<Call>)
    requires Usable(v)
    ensures calls == XLines(v, m, w, xs, logX, ticks)
  {
    calls := [];
    var i := 0;
    while i < |xs|
      invariant 0 <= i <= |xs| && calls == XLines(v, m, w, xs[..i], logX, ticks)
    {
      assert xs[..i + 1][..i] == xs[..i];
      var xIndex := xs[i];
      var xSpot := Trunc(ScreenX(v, xIndex));
      var sx := xSpot as real;
      var sy1, sy2, sy3, sy4;
      if ticks {
        sy1, sy2, sy3, sy4 := v.orgY, v.orgY + m.tickLen as real, v.oppY - m.tickLen as real, v.oppY;
      } else {
        sy1, sy2 := v.orgY, v.oppY;
      }
      if Abs(xIndex) < ZERO_THRESH * (w.x1 - w.x0) && !logX {
        calls := calls + [SetAttributesStyle(L_ZERO)];
      } else {
        calls := calls + [SetAttributesStyle(L_GRID)];
      }
      calls := calls + [DrawLine(sx, sy1, sx, sy2)];
      if ticks {
        calls := calls + [DrawLine(sx, sy3, sx, sy4)];
      }
      i := i + 1;
    }
    assert xs[..i] == xs;
  }

  /** The y-label loop. */
  method DrawYLabels(v: View, m: Metrics, ys: seq<real>, expY: int, logY: bool,
                     writeValue: (real, int, int, bool) -> string) returns (calls: seq<Call>)
    requires Usable(v)
    ensures calls == YLabels(v, m, ys, expY, logY, writeValue)
  {
    calls := [];
    var i := 0;
    while i < |ys|
      invariant 0 <= i <= |ys| && calls == YLabels(v, m, ys[..i], expY, logY, writeValue)
    {
      assert ys[..i + 1][..i] == ys[..i];
      var ySpot := Trunc(ScreenY(v, ys[i]));
      calls := calls + [DrawText((m.bdrPad + 7 * m.axisWidth) as real, ySpot as real,
                                 writeValue(ys[i], expY, 1, logY), T_RIGHT, T_AXIS)];
      i := i + 1;
    }
    assert ys[..i] == ys;
  }

  /** The x-label loop. */
  method DrawXLabels(v: View, m: Metrics, xs: seq<real>, expX: int, logX: bool,
                     writeValue: (real, int, int, bool) -> string) returns (calls: seq<Call>)
    requires Usable(v)
    ensures calls == XLabels(v, m, xs, expX, logX, writeValue)
  {
    calls := [];
    var i := 0;
    while i < |xs|
      invariant 0 <= i <= |xs| && calls == XLabels(v, m, xs[..i], expX, logX, writeValue)
    {
      assert xs[..i + 1][..i] == xs[..i];
      var xSpot := Trunc(ScreenX(v, xs[i]));
      calls := calls + [DrawText(xSpot as real, (m.areaH - m.bdrPad) as real,
                                 writeValue(xs[i], expX, 0, logX), T_BOTTOM, T_AXIS)];
      i := i + 1;
    }
    assert xs[..i] == xs;
  }

  /** Yincr: the world distance of one label height plus padding, the desired y grid step. */
  function YIncr(v: View, m: Metrics): real {
    (m.axisPad + m.axisHeight) as real * v.scaleY
  }

  /** Xincr: the world width of a seven-character label plus padding, the desired x grid step. */
  function XIncr(v: View, m: Metrics): real {
    (m.axisPad + m.axisWidth * 7) as real * v.scaleX
  }

  /** The values one init_grid / step_grid loop visits below opp: the linear grid, or the given log values. */
  function AxisValues(low: real, incr: real, opp: real, log: bool, logValues: seq<real>): seq<real>
    requires log || incr >= 0.0
  {
    if log then logValues else LinearAxis(low, incr, opp)
  }

  /** A linear axis needs a desired step round_up can take the decade of. */
  predicate GridReady(v: View, m: Metrics, f: AxisFlags) {
    (f.logX || XIncr(v, m) >= 0.0) && (f.logY || YIncr(v, m) >= 0.0)
  }

  /** The x values draw_grid_and_axis visits, from world_org_x while below world_opp_x. */
  function XValues(v: View, m: Metrics, f: AxisFlags, logXs: seq<real>): seq<real>
    requires GridReady(v, m, f)
  {
    AxisValues(v.worldOrgX, XIncr(v, m), v.worldOppX, f.logX, logXs)
  }

  /** The y values draw_grid_and_axis visits, from world_org_y while below world_opp_y. */
  function YValues(v: View, m: Metrics, f: AxisFlags, logYs: seq<real>): seq<real>
    requires GridReady(v, m, f)
  {
    AxisValues(v.worldOrgY, YIncr(v, m), v.worldOppY, f.logY, logYs)
  }

  /** One grid loop of draw_grid_and_axis; the walk of a logarithmic axis is not modelled, its values are given. */
  method GridWalk(cursor: GridCursor, low: real, incr: real, opp: real, log: bool, logValues: seq<real>)
      returns (values: seq<real>)
    requires cursor.Valid() && (log || incr >= 0.0)
    modifies cursor, cursor.juke
    ensures cursor.Valid() && cursor.juke == old(cursor.juke)
    ensures values == AxisValues(low, incr, opp, log, logValues)
  {
    if log {
      values := logValues;
    } else {
      values := LinearWalk(cursor, low, incr, opp);
    }
  }

  /**
   * gxgraph_draw_grid_and_axis. ex and ey are the decades of the larger
   * world bound of each axis (what floor(log10) gives). The labels and the
   * lines each run their own init_grid / step_grid loop per axis, and all
   * four loops visit XValues and YValues.
   */
  method DrawGridAndAxis(v: View, m: Metrics, w: World, f: AxisFlags, xUnit: string, yUnit: string,
                         ex: int, ey: int, logXs: seq<real>, logYs: seq<real>,
                         writeValue: (real, int, int, bool) -> string, cursor: GridCursor)
      returns (calls: seq<Call>, expX: int, expY: int)
    requires Usable(v) && GridReady(v, m, f) && cursor.Valid()
    requires IsDecade(Larger(w.x0, w.x1), ex) && IsDecade(Larger(w.y0, w.y1), ey)
    modifies cursor, cursor.juke
    ensures cursor.Valid() && cursor.juke == old(cursor.juke)
    ensures expX == AxisExponent(f.logX, w.x0, w.x1, ex) && expY == AxisExponent(f.logY, w.y0, w.y1, ey)
    ensures calls == GridCalls(v, m, w, f, xUnit, yUnit, expX, expY,
                               XValues(v, m, f, logXs), YValues(v, m, f, logYs), writeValue)
    ensures Balanced(calls) && AllSound(calls)
  {
    expX := if f.logX then 0 else EngExponent(ex);
    expY := if f.logY then 0 else EngExponent(ey);
    var body := [SetAttributesStyle(L_AXIS)] + UnitLabels(m, v.oppY, xUnit, yUnit, expX, expY);
    var ys := GridWalk(cursor, v.worldOrgY, YIncr(v, m), v.worldOppY, f.logY, logYs);
    var yl := DrawYLabels(v, m, ys, expY, f.logY, writeValue);
    var xs := GridWalk(cursor, v.worldOrgX, XIncr(v, m), v.worldOppX, f.logX, logXs);
    var xl := DrawXLabels(v, m, xs, expX, f.logX, writeValue);
    ys := GridWalk(cursor, v.worldOrgY, YIncr(v, m), v.worldOppY, f.logY, logYs);
    var yg := DrawYLines(v, m, w, ys, f.logY, f.ticks);
    xs := GridWalk(cursor, v.worldOrgX, XIncr(v, m), v.worldOppX, f.logX, logXs);
    var xg := DrawXLines(v, m, w, xs, f.logX, f.ticks);
    body := body + yl + xl + yg + xg + BoxLines(v, f.boundingBox);
    calls := [GroupStart("grid")] + body + [GroupEnd("grid")];
    GridCallsBalanced(v, m, w, f, xUnit, yUnit, expX, expY, xs, ys, writeValue);
  }

  // ---------------------------------------------------------------------
  // gxgraph_draw_window
  // ---------------------------------------------------------------------

  /** The settings gxgraph_draw_window reads from globals. */
  datatype Settings = Settings(
    title: string, xUnit: string, yUnit: string, flags: AxisFlags,
    defaultLines: bool, defaultMarks: bool)

  /** The inputs the grid needs that the model takes from outside: decades, log grid values, value labels. */
  datatype GridInputs = GridInputs(ex: int, ey: int, logXs: seq<real>, logYs: seq<real>,
                                   writeValue: (real, int, int, bool) -> string)

  /** Everything after the transform: title, legend, grid and axis, data. */
  function WindowCalls(v: View, m: Metrics, w: World, ds: seq<Dataset>, s: Settings, g: GridInputs): seq<Call>
    requires Usable(v) && GridReady(v, m, s.flags) && Named(ds)
    requires IsDecade(Larger(w.x0, w.x1), g.ex) && IsDecade(Larger(w.y0, w.y1), g.ey)
  {
    [TitleCall(m, s.title)]
      + LegendCalls(Trunc(v.orgY), v.oppX, v.oppY, m, ds, s.defaultMarks)
      + GridCalls(v, m, w, s.flags, s.xUnit, s.yUnit,
                  AxisExponent(s.flags.logX, w.x0, w.x1, g.ex), AxisExponent(s.flags.logY, w.y0, w.y1, g.ey),
                  XValues(v, m, s.flags, g.logXs), YValues(v, m, s.flags, g.logYs), g.writeValue)
      + DataCalls(v, ds, s.defaultLines, s.defaultMarks)
  }

  /** The drawing part of gxgraph_draw_window: title, legend, grid and axis, data, in that order. */
  method DrawWindowBody(v: View, m: Metrics, w: World, ds: seq<Dataset>, s: Settings, g: GridInputs, cursor: GridCursor)
      returns (calls: seq<Call>)
    requires Usable(v) && GridReady(v, m, s.flags) && Named(ds) && cursor.Valid()
    requires IsDecade(Larger(w.x0, w.x1), g.ex) && IsDecade(Larger(w.y0, w.y1), g.ey)
    modifies cursor, cursor.juke
    ensures cursor.Valid() && cursor.juke == old(cursor.juke)
    ensures calls == WindowCalls(v, m, w, ds, s, g)
    ensures Balanced(calls) && AllSound(calls)
  {
    var title := TitleCall(m, s.title);
    var legend := DrawLegend(Trunc(v.orgY), v.oppX, v.oppY, m, ds, s.defaultMarks);
    var grid, expX, expY := DrawGridAndAxis(v, m, w, s.flags, s.xUnit, s.yUnit, g.ex, g.ey,
                                            g.logXs, g.logYs, g.writeValue, cursor);
    var data := DrawData(v, ds, s.defaultLines, s.defaultMarks);
    calls := [title] + legend + grid + data;
    PlainBalanced(title);
    LegendShape(Trunc(v.orgY), v.oppX, v.oppY, m, ds, s.defaultMarks);
    BalancedConcat([title], legend);
    BalancedConcat([title] + legend, grid);
    BalancedConcat([title] + legend + grid, data);
    AllSoundConcat([title], legend);
    AllSoundConcat([title] + legend, grid);
    AllSoundConcat([title] + legend + grid, data);
  }

  /**
   * gxgraph_draw_window: the on-screen painter first recomputes the
   * transform (its status is not looked at); a window without data
   * sets draws nothing; otherwise title, legend, grid and data follow.
   */
  method DrawWindow(win: Window, m: Metrics, onScreen: bool, s: Settings, g: GridInputs, cursor: GridCursor)
      returns (calls: seq<Call>)
    requires Usable(win.CurrentView()) && GridReady(win.CurrentView(), m, s.flags) && Named(win.datasets)
    requires onScreen ==> win.world.x0 < win.world.x1 && win.world.y0 < win.world.y1
    requires IsDecade(Larger(win.world.x0, win.world.x1), g.ex) && IsDecade(Larger(win.world.y0, win.world.y1), g.ey)
    requires cursor.Valid()
    modifies win, cursor, cursor.juke
    ensures cursor.Valid() && cursor.juke == old(cursor.juke)
    ensures !onScreen ==> unchanged(win)
    ensures win.datasets == old(win.datasets) && win.world.x0 == old(win.world.x0) && win.world.x1 == old(win.world.x1)
    ensures win.world.y0 == old(win.world.y0) && win.world.y1 == old(win.world.y1)
    ensures Usable(win.CurrentView()) && GridReady(win.CurrentView(), m, s.flags)
    ensures win.datasets == [] ==> calls == []
    ensures win.datasets != [] ==> calls == WindowCalls(win.CurrentView(), m, win.world, win.datasets, s, g)
    ensures Balanced(calls) && AllSound(calls)
  {
    if onScreen {
      var status := win.ComputeTransform(m, |s.xUnit|);
      if status == 0 {
        FittedUsable(win.CurrentView());
        FittedGridReady(win.CurrentView(), m, s.flags);
      }
    }
    if win.datasets == [] {
      calls := [];
      return;
    }
    calls := DrawWindowBody(win.CurrentView(), m, win.world, win.datasets, s, g, cursor);
  }
}
