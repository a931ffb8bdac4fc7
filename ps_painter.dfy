/**
 * The PostScript back-end. The output stream is a log of the procedure
 * calls the painter writes (M, L, S, LW, RGB, ms, m, show ...), with their
 * operands as exact reals rather than printf text.
 */
module PostScript {
  import opened GxTypes

  const PAPER_WIDTH: real := 595.0
  const PAPER_HEIGHT: real := 842.0
  /** The font size the prologue selects, and the painter's initial text-size cache. */
  const INITIAL_TEXT_SIZE: real := 11.0

  /** The %%BoundingBox comment: lower-left and upper-right corners. */
  datatype BBox = BBox(llx: real, lly: real, urx: real, ury: real)

  /** The bounding box of a graph of the given size: the graph's own size, centred on the page. */
  function PageBox(graphWidth: real, graphHeight: real): (b: BBox)
    ensures b.urx - b.llx == graphWidth && b.ury - b.lly == graphHeight
    ensures b.llx + b.urx == PAPER_WIDTH && b.lly + b.ury == PAPER_HEIGHT
  {
    BBox((PAPER_WIDTH - graphWidth) / 2.0, (PAPER_HEIGHT - graphHeight) / 2.0,
         (PAPER_WIDTH + graphWidth) / 2.0, (PAPER_HEIGHT + graphHeight) / 2.0)
  }

  datatype ShowOp = Show | RShow | CShow

  /** One line of the PostScript stream. */
  datatype PsCmd =
    | Prologue(box: BBox, tx: real, ty: real)   // header, procedure definitions, `tx ty translate`
    | MarkerDefinitions                          // the /m0 ... /m7 definitions
    | SetFont(size: real)                        // /Helvetica findfont size scalefont setfont
    | LineWidth(w: real)                         // w LW
    | Rgb(r: real, g: real, b: real)             // r g b RGB
    | Line(x1: real, y1: real, x2: real, y2: real)  // x1 y1 M x2 y2 L S
    | MarkSize(sx: real, sy: real)               // sx sy ms
    | MarkProc(name: string)                     // /m /name load def
    | PlaceMark(x: real, y: real)                // x y m
    | ShowText(x: real, y: real, literal: string, op: ShowOp)  // x y M (literal) op
    | ShowPage

  /** Where the stream goes: fopen of a file, or popen of a command. */
  datatype Sink = ToFile(name: string) | ToPipe(command: string)

  datatype Closer = FClose | PClose

  /** The destination ps_painter_new opens for a file name: a leading '|' means a pipe to the rest. */
  function SinkFor(filename: string): (k: Sink)
    ensures k.ToPipe? <==> |filename| > 0 && filename[0] == '|'
    ensures k.ToPipe? ==> [filename[0]] + k.command == filename
    ensures k.ToFile? ==> k.name == filename
  {
    if |filename| > 0 && filename[0] == '|' then ToPipe(filename[1..]) else ToFile(filename)
  }

  /** The stream ps_painter_new writes before any drawing. */
  function Header(graphWidth: real, graphHeight: real): seq<PsCmd> {
    var b := PageBox(graphWidth, graphHeight);
    [Prologue(b, b.llx, b.lly), MarkerDefinitions, SetFont(INITIAL_TEXT_SIZE)]
  }

  // ---------------------------------------------------------------------
  // The painter's cached attributes and what each call writes
  // ---------------------------------------------------------------------

  /** current_text_size, current_mark_type and the current mark sizes. */
  datatype Cache = Cache(textSize: real, markType: int, markSizeX: real, markSizeY: real)

  /** The cache of a new painter: g_new0 zeroes the mark fields; the text size is then set to 11. */
  const INITIAL_CACHE: Cache := Cache(INITIAL_TEXT_SIZE, 0, 0.0, 0.0)

  /** PSY: page y grows upwards, pixel rows downwards. */
  function Psy(areaH: int, y: real): real {
    areaH as real - y
  }

  /** PSY is its own inverse. */
  lemma PsyInvolution(areaH: int, y: real)
    ensures Psy(areaH, Psy(areaH, y)) == y
  {
  }

  /** set_attributes: the line width, then the colour in 1/256 steps of each 16-bit channel. */
  function AttributeCmds(color: Color, lineWidth: real): seq<PsCmd> {
    [LineWidth(lineWidth), Rgb(color.red as real / 256.0, color.green as real / 256.0, color.blue as real / 256.0)]
  }

  /** The colour and width each role preset names. */
  function PresetColor(style: int): Color
    requires IsRole(style)
  {
    if style == L_GRID then GRAY80 else BLACK
  }

  function PresetWidth(style: int): real
    requires IsRole(style)
  {
    if style == L_AXIS then 1.0 else if style == L_GRID then 0.5 else 2.0
  }

  function LineCmd(areaH: int, x1: real, y1: real, x2: real, y2: real): PsCmd {
    Line(x1, Psy(areaH, y1), x2, Psy(areaH, y2))
  }

  /** draw_segments: one draw_line per segment, in order. */
  function SegmentCmds(areaH: int, segs: seq<Seg>): seq<PsCmd>
    decreases |segs|
  {
    if segs == [] then []
    else
      var s := segs[|segs| - 1];
      SegmentCmds(areaH, segs[..|segs| - 1]) + [LineCmd(areaH, s.x1, s.y1, s.x2, s.y2)]
  }

  /** The procedure /m is bound to for a mark type; other types bind nothing. */
  function MarkProcFor(markType: int): seq<PsCmd> {
    if markType == MARK_TYPE_CIRCLE then [MarkProc("mC")]
    else if markType == MARK_TYPE_FCIRCLE then [MarkProc("mFC")]
    else if markType == MARK_TYPE_SQUARE then [MarkProc("mS")]
    else if markType == MARK_TYPE_FSQUARE then [MarkProc("mFS")]
    else []
  }

  function PlaceCmds(areaH: int, marks: seq<Mark>): seq<PsCmd>
    decreases |marks|
  {
    if marks == [] then []
    else PlaceCmds(areaH, marks[..|marks| - 1]) + [PlaceMark(marks[|marks| - 1].x, Psy(areaH, marks[|marks| - 1].y))]
  }

  /** draw_marks: the cached sizes, the procedure for the cached type, then one m per mark. */
  function MarkCmds(areaH: int, c: Cache, marks: seq<Mark>): seq<PsCmd> {
    [MarkSize(c.markSizeX, c.markSizeY)] + MarkProcFor(c.markType) + PlaceCmds(areaH, marks)
  }

  /** The font size draw_text uses: 18 for titles, 11 for axis text, the cached size otherwise. */
  function TextSize(style: int, cached: real): real {
    if style == T_TITLE then 18.0 else if style == T_AXIS then 11.0 else cached
  }

  /** The show procedure and the upward y shift for a justification. */
  function Justify(just: int, size: real): (r: (ShowOp, real))
    ensures just == T_RIGHT ==> r == (RShow, 0.37 * size)
    ensures just == T_UPPERLEFT ==> r == (Show, 0.8 * size)
    ensures just == T_TOP ==> r == (CShow, 0.74 * size)
    ensures just == T_BOTTOM ==> r == (CShow, 0.0)
    ensures just !in {T_RIGHT, T_UPPERLEFT, T_TOP, T_BOTTOM} ==> r == (Show, 0.0)
  {
    if just == T_RIGHT then (RShow, 0.37 * size)
    else if just == T_LOWERLEFT then (Show, 0.0)
    else if just == T_UPPERLEFT then (Show, 0.8 * size)
    else if just == T_BOTTOM then (CShow, 0.0)
    else if just == T_TOP then (CShow, 0.74 * size)
    else (Show, 0.0)
  }

  /** draw_text: a setfont only when the size changes, then the quoted text. */
  function TextCmds(areaH: int, cached: real, x: real, y: real, text: string, just: int, style: int): seq<PsCmd> {
    var size := TextSize(style, cached);
    var j := Justify(just, size);
    (if size != cached then [SetFont(size)] else [])
      + [ShowText(x, Psy(areaH, y + j.1), Escape(text), j.0)]
  }

  // ---------------------------------------------------------------------
  // Quoting text as a PostScript literal string
  // ---------------------------------------------------------------------

  /** The characters draw_text puts a backslash before. */
  predicate Special(c: char) {
    c == '(' || c == ')' || c == '\\'
  }

  /** The body of the literal string: every '(', ')' and '\' preceded by a backslash. */
  function Escape(text: string): string
    decreases |text|
  {
    if text == [] then []
    else (if Special(text[0]) then ['\\', text[0]] else [text[0]]) + Escape(text[1..])
  }

  /** The escaping loop as written at ps_painter.c:336-341, which leaves '\' unescaped. */
  function EscapeAsWritten(text: string): string
    decreases |text|
  {
    if text == [] then []
    else (if text[0] == '(' || text[0] == ')' then ['\\', text[0]] else [text[0]]) + EscapeAsWritten(text[1..])
  }

  function CountWhere(text: string, p: char -> bool): nat
    decreases |text|
  {
    if text == [] then 0 else (if p(text[0]) then 1 else 0) + CountWhere(text[1..], p)
  }

  predicate Paren(c: char) {
    c == '(' || c == ')'
  }

  /** Dropping the backslash in front of each parenthesis. */
  function UnescapeParens(s: string): string
    decreases |s|
  {
    if s == [] then []
    else if |s| >= 2 && s[0] == '\\' && Paren(s[1]) then [s[1]] + UnescapeParens(s[2..])
    else [s[0]] + UnescapeParens(s[1..])
  }

  /** The as-written escaping only inserts backslashes: removing them gives the text back. */
  lemma {:induction false} EscapeAsWrittenUnescapes(text: string)
    ensures UnescapeParens(EscapeAsWritten(text)) == text
    ensures |EscapeAsWritten(text)| == |text| + CountWhere(text, Paren)
    decreases |text|
  {
    if text != [] {
      EscapeAsWrittenUnescapes(text[1..]);
      var e := EscapeAsWritten(text[1..]);
      if Paren(text[0]) {
        assert EscapeAsWritten(text) == ['\\', text[0]] + e;
        assert (['\\', text[0]] + e)[2..] == e;
      } else {
        assert EscapeAsWritten(text) == [text[0]] + e;
        assert ([text[0]] + e)[1..] == e;
      }
      assert text == [text[0]] + text[1..];
    }
  }

  /** The painter's quoting and the loop as written differ only on text holding a backslash. */
  lemma {:induction false} EscapeAgrees(text: string)
    requires forall i :: 0 <= i < |text| ==> text[i] != '\\'
    ensures Escape(text) == EscapeAsWritten(text)
    decreases |text|
  {
    if text != [] {
      assert text[0] != '\\';
      EscapeAgrees(text[1..]);
    }
  }

  /** The corrected escaping grows the text by one backslash per special character. */
  lemma {:induction false} EscapeLength(text: string)
    ensures |Escape(text)| == |text| + CountWhere(text, Special)
    decreases |text|
  {
    if text != [] {
      EscapeLength(text[1..]);
    }
  }

  function Prepend(c: char, r: Option<string>): Option<string> {
    if r.Some? then Some([c] + r.value) else None
  }

  /** The character a backslash escape stands for (an unknown escape drops the backslash). */
  function EscapedChar(e: char): char {
    if e == 'n' then '\n' else if e == 'r' then '\r' else if e == 't' then '\t'
    else if e == 'b' then 8 as char else if e == 'f' then 12 as char else e
  }

  /**
   * How a PostScript interpreter reads the characters after the opening
   * '(' of a literal string (section 3.2.4, "Strings", of the PostScript
   * Language Reference, 3rd edition): balanced parentheses stand for
   * themselves, a backslash escapes the next character, a
   * backslash-newline is a line continuation, and a bare carriage return
   * (or CR LF) reads as a newline. The result is the string's value when
   * the literal closes exactly at the end of s, None when it stays open
   * or closes early. Octal escapes are outside this reader: it gives
   * None for them.
   */
  function ReadLiteral(s: string, depth: nat): Option<string>
    decreases |s|
  {
    if s == [] then None
    else if s[0] == ')' then
      if depth == 0 then (if |s| == 1 then Some([]) else None)
      else Prepend(')', ReadLiteral(s[1..], depth - 1))
    else if s[0] == '(' then Prepend('(', ReadLiteral(s[1..], depth + 1))
    else if s[0] == '\\' then
      if |s| == 1 then None
      else if '0' <= s[1] <= '7' then None
      else if s[1] == '\n' then ReadLiteral(s[2..], depth)
      else if s[1] == '\r' then ReadLiteral(if |s| > 2 && s[2] == '\n' then s[3..] else s[2..], depth)
      else Prepend(EscapedChar(s[1]), ReadLiteral(s[2..], depth))
    else if s[0] == '\r' then Prepend('\n', ReadLiteral(if |s| > 1 && s[1] == '\n' then s[2..] else s[1..], depth))
    else Prepend(s[0], ReadLiteral(s[1..], depth))
  }

  lemma Assoc3(a: string, b: string, c: string)
    ensures (a + b) + c == a + (b + c)
  {
  }

  /** What draw_text writes between "(" and ")" reads back as the text itself. */
  lemma {:induction false} EscapeReadsBack(text: string)
    requires forall i :: 0 <= i < |text| ==> text[i] != '\r'
    ensures ReadLiteral(Escape(text) + ")", 0) == Some(text)
    decreases |text|
  {
    if text == [] {
      assert Escape(text) + ")" == ")";
    } else {
      var c, rest := text[0], text[1..];
      assert forall i :: 0 <= i < |rest| ==> rest[i] == text[i + 1];
      EscapeReadsBack(rest);
      var tail := Escape(rest) + ")";
      if Special(c) {
        Assoc3(['\\', c], Escape(rest), ")");
        var s := ['\\', c] + tail;
        assert s[0] == '\\' && s[1] == c && s[2..] == tail;
      } else {
        Assoc3([c], Escape(rest), ")");
        var s := [c] + tail;
        assert s[0] == c && s[1..] == tail;
      }
      assert text == [c] + rest;
    }
  }

  /** Without backslashes (and carriage returns) in the text, the as-written escaping reads back too. */
  lemma {:induction false} EscapeAsWrittenReadsBack(text: string)
    requires forall i :: 0 <= i < |text| ==> text[i] != '\r' && text[i] != '\\'
    ensures ReadLiteral(EscapeAsWritten(text) + ")", 0) == Some(text)
    decreases |text|
  {
    if text == [] {
      assert EscapeAsWritten(text) + ")" == ")";
    } else {
      var c, rest := text[0], text[1..];
      assert forall i :: 0 <= i < |rest| ==> rest[i] == text[i + 1];
      EscapeAsWrittenReadsBack(rest);
      var tail := EscapeAsWritten(rest) + ")";
      if Paren(c) {
        Assoc3(['\\', c], EscapeAsWritten(rest), ")");
        var s := ['\\', c] + tail;
        assert s[0] == '\\' && s[1] == c && s[2..] == tail;
      } else {
        Assoc3([c], EscapeAsWritten(rest), ")");
        var s := [c] + tail;
        assert s[0] == c && s[1..] == tail;
      }
      assert text == [c] + rest;
    }
  }

  /**
   * A text that ends in a backslash, such as a set name "C:\", leaves the
   * literal open: the backslash escapes the closing parenthesis, and the
   * rest of the page description is swallowed into the string.
   */
  lemma TrailingBackslashAsWritten()
    ensures EscapeAsWritten("C:\\") == "C:\\"
    ensures ReadLiteral(EscapeAsWritten("C:\\") + ")", 0) == None
    ensures ReadLiteral(Escape("C:\\") + ")", 0) == Some("C:\\")
  {
    assert EscapeAsWritten("C:\\") == "C:\\" by {
      assert EscapeAsWritten("\\") == "\\";
      assert EscapeAsWritten(":\\") == ":\\";
    }
    var s := "C:\\)";
    assert "C:\\" + ")" == s;
    assert ReadLiteral(s[2..], 0) == None by {
      assert s[2..] == "\\)";
      assert ReadLiteral(s[4..], 0) == None;
    }
    assert ReadLiteral(s[1..], 0) == None;
    EscapeReadsBack("C:\\");
  }

  // ---------------------------------------------------------------------
  // One painter call
  // ---------------------------------------------------------------------

  /** The new cache and the stream a painter call writes. */
  function Step(areaH: int, c: Cache, call: Call): (Cache, seq<PsCmd>)
    requires Sound(call)
  {
    match call
    case SetAttributes(color, lineWidth, _, markType, sx, sy) =>
      (Cache(c.textSize, markType, sx, sy), AttributeCmds(color, lineWidth))
    case SetAttributesStyle(style) =>
      (Cache(c.textSize, 0, 1.0, 1.0), AttributeCmds(PresetColor(style), PresetWidth(style)))
    case DrawLine(x1, y1, x2, y2) => (c, [LineCmd(areaH, x1, y1, x2, y2)])
    case DrawSegments(segs) => (c, SegmentCmds(areaH, segs))
    case DrawMarks(marks) => (c, MarkCmds(areaH, c, marks))
    case DrawText(x, y, text, just, style) =>
      (c.(textSize := TextSize(style, c.textSize)), TextCmds(areaH, c.textSize, x, y, text, just, style))
    case GroupStart(_) => (c, [])
    case GroupEnd(_) => (c, [])
  }

  /** A sequence of painter calls, in order. */
  function Render(areaH: int, c: Cache, calls: seq<Call>): (Cache, seq<PsCmd>)
    requires AllSound(calls)
    decreases |calls|
  {
    if calls == [] then (c, [])
    else
      var r := Render(areaH, c, calls[..|calls| - 1]);
      var s := Step(areaH, r.0, calls[|calls| - 1]);
      (s.0, r.1 + s.1)
  }

  /** The segments' end points come back from the stream: PSY undone, in order. */
  function LinesToSegs(areaH: int, cmds: seq<PsCmd>): seq<Seg>
    decreases |cmds|
  {
    if cmds == [] then []
    else
      var l := cmds[|cmds| - 1];
      LinesToSegs(areaH, cmds[..|cmds| - 1])
        + (if l.Line? then [Seg(l.x1, Psy(areaH, l.y1), l.x2, Psy(areaH, l.y2))] else [])
  }

  /** draw_segments writes exactly one line per segment, in order, and the batch can be read back. */
  lemma {:induction false} SegmentCmdsRoundTrip(areaH: int, segs: seq<Seg>)
    ensures |SegmentCmds(areaH, segs)| == |segs|
    ensures forall k :: 0 <= k < |segs| ==> SegmentCmds(areaH, segs)[k].Line?
    ensures LinesToSegs(areaH, SegmentCmds(areaH, segs)) == segs
    decreases |segs|
  {
    if segs != [] {
      var init := segs[..|segs| - 1];
      SegmentCmdsRoundTrip(areaH, init);
      var cmds := SegmentCmds(areaH, segs);
      assert cmds[..|cmds| - 1] == SegmentCmds(areaH, init);
      assert segs == init + [segs[|segs| - 1]];
    }
  }

  lemma {:induction false} PlaceCmdsShape(areaH: int, marks: seq<Mark>)
    ensures |PlaceCmds(areaH, marks)| == |marks|
    ensures forall k :: 0 <= k < |marks| ==>
      PlaceCmds(areaH, marks)[k] == PlaceMark(marks[k].x, Psy(areaH, marks[k].y))
    decreases |marks|
  {
    if marks != [] {
      PlaceCmdsShape(areaH, marks[..|marks| - 1]);
    }
  }

  /** /m is bound exactly for the circle and square types. */
  lemma MarkProcBound(markType: int)
    ensures |MarkProcFor(markType)| <= 1
    ensures |MarkProcFor(markType)| == 1 <==>
      markType in {MARK_TYPE_CIRCLE, MARK_TYPE_FCIRCLE, MARK_TYPE_SQUARE, MARK_TYPE_FSQUARE}
  {
  }

  /** draw_marks: the size line, the procedure binding, then one m per mark at its page position. */
  lemma MarkCmdsShape(areaH: int, c: Cache, marks: seq<Mark>)
    ensures var cmds := MarkCmds(areaH, c, marks);
      var p := |MarkProcFor(c.markType)|;
      cmds[0] == MarkSize(c.markSizeX, c.markSizeY) && |cmds| == 1 + p + |marks| &&
      forall k :: 0 <= k < |marks| ==> cmds[1 + p + k] == PlaceMark(marks[k].x, Psy(areaH, marks[k].y))
  {
    PlaceCmdsShape(areaH, marks);
    var head := [MarkSize(c.markSizeX, c.markSizeY)] + MarkProcFor(c.markType);
    var places := PlaceCmds(areaH, marks);
    assert MarkCmds(areaH, c, marks) == head + places;
    assert forall k :: 0 <= k < |marks| ==> (head + places)[|head| + k] == places[k];
  }

  /** set_attributes_style is set_attributes with the preset colour and width, mark type 0 and sizes 1. */
  lemma StyleIsPresetAttributes(areaH: int, c: Cache, style: int, lineStyle: int)
    requires IsRole(style)
    ensures Step(areaH, c, SetAttributesStyle(style))
         == Step(areaH, c, SetAttributes(PresetColor(style), PresetWidth(style), lineStyle, 0, 1.0, 1.0))
    ensures style == L_AXIS ==> PresetColor(style) == BLACK && PresetWidth(style) == 1.0
    ensures style == L_GRID ==> PresetColor(style) == GRAY80 && PresetWidth(style) == 0.5
    ensures style == L_ZERO ==> PresetColor(style) == BLACK && PresetWidth(style) == 2.0
  {
  }

  /**
   * The font cache: after draw_text the cache holds the size just used, a
   * setfont is written exactly when that size differs from the cached
   * one, and a second call with the same style writes none.
   */
  lemma FontCache(areaH: int, c: Cache, x: real, y: real, text: string, just: int, style: int,
                  x2: real, y2: real, text2: string, just2: int)
    requires T_CENTER <= just <= T_LOWERLEFT && T_CENTER <= just2 <= T_LOWERLEFT
    ensures var r := Step(areaH, c, DrawText(x, y, text, just, style));
      var size := TextSize(style, c.textSize);
      r.0.textSize == size &&
      (r.1[0].SetFont? <==> size != c.textSize) &&
      (r.1[0].SetFont? ==> r.1[0].size == size) &&
      var r2 := Step(areaH, r.0, DrawText(x2, y2, text2, just2, style));
      r2.0 == r.0 && |r2.1| == 1 && !r2.1[0].SetFont?
  {
  }

  /** A call sequence splits: rendering a + b renders a, then b from a's cache. */
  lemma {:induction false} RenderAppend(areaH: int, c: Cache, a: seq<Call>, b: seq<Call>)
    requires AllSound(a) && AllSound(b)
    ensures AllSound(a + b)
    ensures var ra := Render(areaH, c, a); var rb := Render(areaH, ra.0, b);
      Render(areaH, c, a + b).0 == rb.0 && Render(areaH, c, a + b).1 == ra.1 + rb.1
    decreases |b|
  {
    AllSoundConcat(a, b);
    if b == [] {
      assert a + b == a;
    } else {
      var b' := b[..|b| - 1];
      assert (a + b)[..|a + b| - 1] == a + b';
      assert (a + b)[|a + b| - 1] == b[|b| - 1];
      RenderAppend(areaH, c, a, b');
    }
  }

  /** group_start and group_end write nothing and leave the cache alone. */
  lemma GroupCallsSilent(areaH: int, c: Cache, a: seq<Call>, name: string, b: seq<Call>)
    requires AllSound(a) && AllSound(b)
    ensures AllSound(a + [GroupStart(name)] + b) && AllSound(a + [GroupEnd(name)] + b)
    ensures Render(areaH, c, a + [GroupStart(name)] + b).0 == Render(areaH, c, a + b).0
    ensures Render(areaH, c, a + [GroupStart(name)] + b).1 == Render(areaH, c, a + b).1
    ensures Render(areaH, c, a + [GroupEnd(name)] + b).0 == Render(areaH, c, a + b).0
    ensures Render(areaH, c, a + [GroupEnd(name)] + b).1 == Render(areaH, c, a + b).1
  {
    assert AllSound([GroupStart(name)]) && AllSound([GroupEnd(name)]);
    AllSoundConcat(a, [GroupStart(name)]);
    AllSoundConcat(a, [GroupEnd(name)]);
    RenderAppend(areaH, c, a, [GroupStart(name)]);
    RenderAppend(areaH, c, a, [GroupEnd(name)]);
    RenderAppend(areaH, c, a + [GroupStart(name)], b);
    RenderAppend(areaH, c, a + [GroupEnd(name)], b);
    RenderAppend(areaH, c, a, b);
    assert [GroupStart(name)][..0] == [];
    assert [GroupEnd(name)][..0] == [];
  }

  // ---------------------------------------------------------------------
  // ps_painter_t
  // ---------------------------------------------------------------------

  class PsPainter {
    var areaW: int
    var areaH: int
    var isPipe: bool
    var sink: Sink
    var out: seq<PsCmd>
    var currentTextSize: real
    var currentMarkType: int
    var currentMarkSizeX: real
    var currentMarkSizeY: real
    var closedWith: Option<Closer>

    function CacheOf(): Cache
      reads this
    {
      Cache(currentTextSize, currentMarkType, currentMarkSizeX, currentMarkSizeY)
    }

    /** ps_painter_new: the window's size (area_w, area_h are ints), the sink, the header. */
    constructor(graphWidth: real, graphHeight: real, filename: string)
      ensures areaW == Trunc(graphWidth) && areaH == Trunc(graphHeight)
      ensures sink == SinkFor(filename) && isPipe == sink.ToPipe?
      ensures out == Header(graphWidth, graphHeight)
      ensures CacheOf() == INITIAL_CACHE && closedWith == None
    {
      areaW := Trunc(graphWidth);
      areaH := Trunc(graphHeight);
      currentMarkType, currentMarkSizeX, currentMarkSizeY := 0, 0.0, 0.0;
      isPipe := false;
      if |filename| > 0 && filename[0] == '|' {
        sink := ToPipe(filename[1..]);
        isPipe := true;
      } else {
        sink := ToFile(filename);
      }
      var b := BBox((PAPER_WIDTH - graphWidth) / 2.0, (PAPER_HEIGHT - graphHeight) / 2.0,
                    (PAPER_WIDTH + graphWidth) / 2.0, (PAPER_HEIGHT + graphHeight) / 2.0);
      out := [Prologue(b, b.llx, b.lly), MarkerDefinitions];
      currentTextSize := 11.0;
      out := out + [SetFont(currentTextSize)];
      closedWith := None;
    }

    /** ps_painter_delete: showpage, then pclose for a pipe and fclose for a file. */
    method Delete()
      requires closedWith == None
      modifies this
      ensures out == old(out) + [ShowPage]
      ensures closedWith == Some(if isPipe then PClose else FClose)
      ensures isPipe == old(isPipe) && sink == old(sink) && CacheOf() == old(CacheOf())
      ensures areaW == old(areaW) && areaH == old(areaH)
    {
      out := out + [ShowPage];
      if isPipe {
        closedWith := Some(PClose);
      } else {
        closedWith := Some(FClose);
      }
    }

    method SetAttributes(color: Color, lineWidth: real, lineStyle: int, markType: int, markSizeX: real, markSizeY: real)
      modifies this
      ensures var r := Step(areaH, old(CacheOf()), Call.SetAttributes(color, lineWidth, lineStyle, markType, markSizeX, markSizeY));
        CacheOf() == r.0 && out == old(out) + r.1
      ensures areaW == old(areaW) && areaH == old(areaH) && isPipe == old(isPipe) && sink == old(sink)
      ensures closedWith == old(closedWith)
    {
      out := out + [LineWidth(lineWidth), Rgb(1.0 / 256.0 * color.red as real, 1.0 / 256.0 * color.green as real, 1.0 / 256.0 * color.blue as real)];
      currentMarkType := markType;
      currentMarkSizeX := markSizeX;
      currentMarkSizeY := markSizeY;
    }

    method SetAttributesStyle(style: int)
      requires IsRole(style)
      modifies this
      ensures var r := Step(areaH, old(CacheOf()), Call.SetAttributesStyle(style));
        CacheOf() == r.0 && out == old(out) + r.1
      ensures areaW == old(areaW) && areaH == old(areaH) && isPipe == old(isPipe) && sink == old(sink)
      ensures closedWith == old(closedWith)
    {
      var color, lineWidth;
      if style == L_AXIS {
        color, lineWidth := BLACK, 1.0;
      } else if style == L_GRID {
        color, lineWidth := GRAY80, 0.5;
      } else {
        color, lineWidth := BLACK, 2.0;
      }
      SetAttributes(color, lineWidth, GDK_LINE_SOLID, 0, 1.0, 1.0);
    }

    method DrawLine(x1: real, y1: real, x2: real, y2: real)
      modifies this
      ensures out == old(out) + [LineCmd(areaH, x1, y1, x2, y2)]
      ensures CacheOf() == old(CacheOf()) && areaW == old(areaW) && areaH == old(areaH)
      ensures isPipe == old(isPipe) && sink == old(sink) && closedWith == old(closedWith)
    {
      out := out + [Line(x1, areaH as real - y1, x2, areaH as real - y2)];
    }

    method DrawSegments(segs: seq<Seg>)
      modifies this
      ensures out == old(out) + SegmentCmds(areaH, segs)
      ensures CacheOf() == old(CacheOf()) && areaW == old(areaW) && areaH == old(areaH)
      ensures isPipe == old(isPipe) && sink == old(sink) && closedWith == old(closedWith)
    {
      var i := 0;
      while i < |segs|
        invariant 0 <= i <= |segs|
        invariant out == old(out) + SegmentCmds(areaH, segs[..i])
        invariant CacheOf() == old(CacheOf()) && areaW == old(areaW) && areaH == old(areaH)
        invariant isPipe == old(isPipe) && sink == old(sink) && closedWith == old(closedWith)
      {
        assert segs[..i + 1][..i] == segs[..i];
        DrawLine(segs[i].x1, segs[i].y1, segs[i].x2, segs[i].y2);
        i := i + 1;
      }
      assert segs[..i] == segs;
    }

    method DrawMarks(marks: seq<Mark>)
      modifies this
      ensures out == old(out) + MarkCmds(areaH, CacheOf(), marks)
      ensures CacheOf() == old(CacheOf()) && areaW == old(areaW) && areaH == old(areaH)
      ensures isPipe == old(isPipe) && sink == old(sink) && closedWith == old(closedWith)
    {
      var markType := currentMarkType;
      out := out + [MarkSize(currentMarkSizeX, currentMarkSizeY)];
      if markType == MARK_TYPE_CIRCLE {
        out := out + [MarkProc("mC")];
      } else if markType == MARK_TYPE_FCIRCLE {
        out := out + [MarkProc("mFC")];
      } else if markType == MARK_TYPE_SQUARE {
        out := out + [MarkProc("mS")];
      } else if markType == MARK_TYPE_FSQUARE {
        out := out + [MarkProc("mFS")];
      }
      ghost var before := out;
      var i := 0;
      while i < |marks|
        invariant 0 <= i <= |marks|
        invariant out == before + PlaceCmds(areaH, marks[..i])
        invariant CacheOf() == old(CacheOf()) && areaW == old(areaW) && areaH == old(areaH)
        invariant isPipe == old(isPipe) && sink == old(sink) && closedWith == old(closedWith)
      {
        assert marks[..i + 1][..i] == marks[..i];
        out := out + [PlaceMark(marks[i].x, areaH as real - marks[i].y)];
        i := i + 1;
      }
      assert marks[..i] == marks;
    }

    method DrawText(x: real, y: real, text: string, just: int, style: int)
      modifies this
      ensures out == old(out) + TextCmds(areaH, old(currentTextSize), x, y, text, just, style)
      ensures currentTextSize == TextSize(style, old(currentTextSize))
      ensures currentMarkType == old(currentMarkType)
      ensures currentMarkSizeX == old(currentMarkSizeX) && currentMarkSizeY == old(currentMarkSizeY)
      ensures areaW == old(areaW) && areaH == old(areaH)
      ensures isPipe == old(isPipe) && sink == old(sink) && closedWith == old(closedWith)
    {
      var showString := Show;
      var yPos := y;
      var textSize := currentTextSize;
      if style == T_TITLE {
        textSize := 18.0;
      } else if style == T_AXIS {
        textSize := 11.0;
      }
      if textSize != currentTextSize {
        out := out + [SetFont(textSize)];
        currentTextSize := textSize;
      }
      if just == T_RIGHT {
        yPos := yPos + 0.37 * textSize;
        showString := RShow;
      } else if just == T_LOWERLEFT {
        showString := Show;
      } else if just == T_UPPERLEFT {
        showString := Show;
        yPos := yPos + 0.8 * textSize;
      } else if just == T_BOTTOM {
        showString := CShow;
      } else if just == T_TOP {
        showString := CShow;
        yPos := yPos + 0.74 * textSize;
      }
      var literal := QuoteText(text);
      out := out + [ShowText(x, areaH as real - yPos, literal, showString)];
    }

    /** group_start writes nothing. */
    method GroupStart(name: string)
      ensures out == old(out) && CacheOf() == old(CacheOf())
    {
    }

    /** group_end writes nothing. */
    method GroupEnd(name: string)
      ensures out == old(out) && CacheOf() == old(CacheOf())
    {
    }

    /** One call through the painter_t function table. */
    method Apply(call: Call)
      requires Sound(call)
      modifies this
      ensures var r := Step(areaH, old(CacheOf()), call);
        CacheOf() == r.0 && out == old(out) + r.1
      ensures areaW == old(areaW) && areaH == old(areaH) && isPipe == old(isPipe) && sink == old(sink)
      ensures closedWith == old(closedWith)
    {
      match call
      case SetAttributes(color, lineWidth, lineStyle, markType, sx, sy) =>
        SetAttributes(color, lineWidth, lineStyle, markType, sx, sy);
      case SetAttributesStyle(style) => SetAttributesStyle(style);
      case DrawLine(x1, y1, x2, y2) => DrawLine(x1, y1, x2, y2);
      case DrawSegments(segs) => DrawSegments(segs);
      case DrawMarks(marks) => DrawMarks(marks);
      case DrawText(x, y, text, just, style) => DrawText(x, y, text, just, style);
      case GroupStart(name) => GroupStart(name);
      case GroupEnd(name) => GroupEnd(name);
    }

    /** A whole drawing: the calls in order. */
    method Play(calls: seq<Call>)
      requires AllSound(calls)
      modifies this
      ensures var r := Render(areaH, old(CacheOf()), calls);
        CacheOf() == r.0 && out == old(out) + r.1
      ensures areaW == old(areaW) && areaH == old(areaH) && isPipe == old(isPipe) && sink == old(sink)
      ensures closedWith == old(closedWith)
    {
      var i := 0;
      assert calls[..0] == [];
      while i < |calls|
        invariant 0 <= i <= |calls|
        invariant var r := Render(areaH, old(CacheOf()), calls[..i]);
          CacheOf() == r.0 && out == old(out) + r.1
        invariant areaW == old(areaW) && areaH == old(areaH) && isPipe == old(isPipe) && sink == old(sink)
        invariant closedWith == old(closedWith)
      {
        ghost var r := Render(areaH, old(CacheOf()), calls[..i]);
        assert calls[..i + 1][..i] == calls[..i] && calls[..i + 1][i] == calls[i];
        assert AllSound(calls[..i + 1]);
        Apply(calls[i]);
        ghost var st := Step(areaH, r.0, calls[i]);
        assert out == old(out) + r.1 + st.1;
        assert Render(areaH, old(CacheOf()), calls[..i + 1]).1 == r.1 + st.1;
        i := i + 1;
      }
      assert calls[..i] == calls;
    }
  }

  /** The character loop of draw_text, with the backslash escaped as well. */
  method QuoteText(text: string) returns (literal: string)
    ensures literal == Escape(text)
  {
    literal := [];
    var i := 0;
    while i < |text|
      invariant 0 <= i <= |text| && literal == Escape(text[..i])
    {
      EscapeSnoc(text[..i], text[i]);
      assert text[..i + 1] == text[..i] + [text[i]];
      if text[i] == ')' || text[i] == '(' || text[i] == '\\' {
        literal := literal + ['\\'];
      }
      literal := literal + [text[i]];
      i := i + 1;
    }
    assert text[..i] == text;
  }

  lemma {:induction false} EscapeSnoc(a: string, c: char)
    ensures Escape(a + [c]) == Escape(a) + (if Special(c) then ['\\', c] else [c])
    decreases |a|
  {
    if a == [] {
      assert [] + [c] == [c];
    } else {
      assert (a + [c])[1..] == a[1..] + [c];
      EscapeSnoc(a[1..], c);
    }
  }
}
