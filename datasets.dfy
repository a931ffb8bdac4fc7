/**
 * Reading data sets: the record created for every new set (new_dataset and
 * the colour and file name read_data_sets gives it), the effect of one
 * classified line on the current set, the set-splitting rules of
 * read_data_sets, and the world box put_datasets_in_window derives from the
 * data.
 *
 * File access is abstracted: a file is the sequence of strings fgets
 * returns, and the numbers sscanf / atof / atoi read from a line and the
 * colour gdk_color_parse reads from it are given with the line.
 */
module Datasets {
  import opened GxTypes
  import opened Parser
  import Windows

  /** set_colors: red, green, blue, yellow, cyan, magenta, cycled by set number. */
  const SET_COLORS: seq<Color> := [
    Color(0xffff, 0, 0), Color(0, 0xffff, 0), Color(0, 0, 0xffff),
    Color(0xffff, 0xffff, 0), Color(0, 0xffff, 0xffff), Color(0xffff, 0, 0xffff)]

  /** The command-line defaults new_dataset copies. */
  datatype Defaults = Defaults(
    scaleMarks: int, markType: int, markSize: real,
    overrideNames: Option<seq<Option<string>>>)   // prm_override_names; None is NULL

  /** default_scale_marks FALSE, default_mark_type 1, default_mark_size 7, no override names. */
  const INITIAL_DEFAULTS: Defaults := Defaults(0, 1, 7.0, None)

  /** What the C library reads from one line: the two coordinates, the number
   *  and integer of word 1, and the colour word 1 names (None if it names none).
   *  For a text line, textX is what the x member of the point union holds once
   *  the text object pointer has been stored over it. */
  datatype Scanned = Scanned(x: real, y: real, textX: real, number: real, integer: int, color: Option<Color>)

  // ---------------------------------------------------------------------
  // "%d"
  // ---------------------------------------------------------------------

  function Digit(n: nat): char
    requires n < 10
  {
    ('0' as int + n) as char
  }

  /** The decimal digits of n, as "%d" prints a non-negative int. */
  function DecimalString(n: nat): (s: string)
    ensures |s| > 0 && forall k :: 0 <= k < |s| ==> '0' <= s[k] <= '9'
  {
    if n < 10 then [Digit(n)] else DecimalString(n / 10) + [Digit(n % 10)]
  }

  function DecimalValue(s: string): int
    decreases |s|
  {
    if s == [] then 0 else 10 * DecimalValue(s[..|s| - 1]) + (s[|s| - 1] as int - '0' as int)
  }

  /** Reading the digits back gives the number. */
  lemma {:induction false} DecimalRoundTrip(n: nat)
    ensures DecimalValue(DecimalString(n)) == n
  {
    if n >= 10 {
      DecimalRoundTrip(n / 10);
      var s := DecimalString(n);
      assert s[..|s| - 1] == DecimalString(n / 10);
    }
  }

  // ---------------------------------------------------------------------
  // new_dataset
  // ---------------------------------------------------------------------

  /** The name a new set gets: its override name if one was given, otherwise the file name. */
  function InitialName(setIdx: nat, fileName: string, dflt: Defaults): string {
    if dflt.overrideNames.Some? && setIdx < |dflt.overrideNames.value| && dflt.overrideNames.value[setIdx].Some?
    then dflt.overrideNames.value[setIdx].value
    else fileName
  }

  /**
   * The record read_data_sets starts a set with: new_dataset(num, filename)
   * followed by the cycled set colour and the file name.
   */
  function StartSet(num: nat, fileName: string, dflt: Defaults): (d: Dataset)
    ensures d.points == [] && d.doDrawMarks == Unset && d.doDrawLines == Unset
    ensures !d.doDrawPolygon && !d.doDrawPolygonOutline && d.isVisible
    ensures d.color == SET_COLORS[num % 6] && d.fileName == Some(fileName)
    ensures d.setName == Some(InitialName(num, fileName, dflt))
    ensures d.pathName.Some? && |d.pathName.value| > 8 && d.pathName.value[..8] == "Dataset "
    ensures d.pathName.Some? && |d.pathName.value| > 8 && DecimalValue(d.pathName.value[8..]) == num
  {
    DecimalRoundTrip(num);
    var path := "Dataset " + DecimalString(num);
    assert path[8..] == DecimalString(num);
    Dataset(
      color := SET_COLORS[num % 6],
      outlineColor := None,
      lineWidth := 1.0,
      lineStyle := 0,
      markType := dflt.markType,
      textSize := 12,
      markSize := dflt.markSize,
      doScaleMarks := dflt.scaleMarks,
      doDrawMarks := Unset,
      doDrawLines := Unset,
      doDrawPolygon := false,
      doDrawPolygonOutline := false,
      points := [],
      pathName := Some(path),
      fileName := Some(fileName),
      isVisible := true,
      setName := Some(InitialName(num, fileName, dflt)))
  }

  // ---------------------------------------------------------------------
  // One record
  // ---------------------------------------------------------------------

  /** The point a record of type t appends, if it is a point record. */
  function RecordPoint(t: int, sc: Scanned): Option<Point> {
    if t == STRING_DRAW then Some(Point(Draw, sc.x, sc.y))
    else if t == STRING_MOVE then Some(Point(Move, sc.x, sc.y))
    else if t == STRING_TEXT then Some(Point(Text, sc.textX, sc.y))
    else None
  }

  function OptionSeq(p: Option<Point>): seq<Point> {
    if p.Some? then [p.value] else []
  }

  /** The line types that change the current set (the others change globals or nothing). */
  predicate ChangesSet(t: int) {
    t == STRING_DRAW || t == STRING_MOVE || t == STRING_TEXT || t == STRING_CHANGE_LINE_WIDTH
    || t == STRING_CHANGE_NO_LINE || t == STRING_CHANGE_POLYGON || t == STRING_CHANGE_LINE
    || t == STRING_CHANGE_NO_MARK || t == STRING_CHANGE_MARK_SIZE || t == STRING_CHANGE_TEXT_SIZE
    || t == STRING_CHANGE_COLOR || t == STRING_CHANGE_OUTLINE_COLOR || t == STRING_CHANGE_MARKS
    || t == STRING_CHANGE_SCALE_MARKS || t == STRING_PATH_NAME || t == STRING_SET_NAME
  }

  /**
   * A "$name" line that gives no name is a SET_NAME record whose
   * string_strdup_rest finds no word 1, so the set is left without a name.
   */
  lemma BareNameUnnamed(d: Dataset, sc: Scanned)
    ensures ParseString("$name\n") == STRING_SET_NAME
    ensures ApplyRecord(d, STRING_SET_NAME, "$name\n", sc).setName == None
  {
    BareNameParse();
    BareNameRest();
    SetNameRecord(d, "$name\n", sc);
  }

  lemma SetNameRecord(d: Dataset, line: string, sc: Scanned)
    requires |line| > 0 && line[0] != '"'
    ensures ApplyRecord(d, STRING_SET_NAME, line, sc).setName == RestAt(line, 1)
  {
  }

  /** The mark type of a "$marks" line; a missing name compares equal to "circle" in g_strcasecmp. */
  function MarksLineType(line: string): int {
    var name := WordAt(line, 1);
    if name.Some? then ParseMarkType(name.value) else MARK_TYPE_CIRCLE
  }

  /**
   * The switch of read_data_sets on the type of a line, applied to the
   * current set. The SCALE_MARKS test uses the corrected word count
   * (Parser.Words), not the as-written one, which counts six words in
   * "$scale_marks\n" (Parser.CountWordsAsWrittenMiscounts).
   */
  function ApplyRecord(d: Dataset, t: int, line: string, sc: Scanned): (r: Dataset)
    ensures r.points == d.points + OptionSeq(RecordPoint(t, sc))
    ensures RecordPoint(t, sc).Some? ==> r == d.(points := r.points)
    ensures RecordPoint(t, sc).None? ==> r.points == d.points
    ensures !ChangesSet(t) ==> r == d
    ensures r.fileName == d.fileName && r.isVisible == d.isVisible && r.lineStyle == d.lineStyle
  {
    if RecordPoint(t, sc).Some? then d.(points := d.points + [RecordPoint(t, sc).value])
    else if t == STRING_CHANGE_LINE_WIDTH then d.(lineWidth := sc.number)
    else if t == STRING_CHANGE_NO_LINE then d.(doDrawLines := Off)
    else if t == STRING_CHANGE_POLYGON then d.(doDrawPolygon := true)
    else if t == STRING_CHANGE_LINE then d.(doDrawLines := On)
    else if t == STRING_CHANGE_NO_MARK then d.(doDrawMarks := Off)
    else if t == STRING_CHANGE_MARK_SIZE then d.(markSize := sc.number)
    else if t == STRING_CHANGE_TEXT_SIZE then d.(textSize := Trunc(sc.number))
    else if t == STRING_CHANGE_COLOR then
      (if sc.color.Some? then d.(color := sc.color.value) else d)
    else if t == STRING_CHANGE_OUTLINE_COLOR then
      d.(outlineColor := if sc.color.Some? then sc.color else d.outlineColor, doDrawPolygonOutline := true)
    else if t == STRING_CHANGE_MARKS then d.(doDrawMarks := On, markType := MarksLineType(line))
    else if t == STRING_CHANGE_SCALE_MARKS then
      d.(doScaleMarks := if |Words(line)| == 1 then 1 else sc.integer)
    else if t == STRING_PATH_NAME then d.(pathName := RestAt(line, 1))
    else if t == STRING_SET_NAME then
      d.(setName := if |line| > 0 && line[0] == '"' then Some(line[1..]) else RestAt(line, 1))
    else d
  }

  /** The point a whole line contributes: none for a one-character line, which only splits sets. */
  function LinePoint(line: string, sc: Scanned): seq<Point> {
    if |line| == 1 then [] else OptionSeq(RecordPoint(ParseString(line), sc))
  }

  /** The points of a run of lines, in order. */
  function LinePoints(lines: seq<string>, scans: seq<Scanned>): seq<Point>
    requires |lines| == |scans|
    decreases |lines|
  {
    if lines == [] then []
    else LinePoints(lines[..|lines| - 1], scans[..|scans| - 1]) + LinePoint(lines[|lines| - 1], scans[|scans| - 1])
  }

  /** All points of a list of sets, in list order. */
  function Flatten(ds: seq<Dataset>): seq<Point>
    decreases |ds|
  {
    if ds == [] then [] else Flatten(ds[..|ds| - 1]) + ds[|ds| - 1].points
  }

  lemma FlattenAppend(ds: seq<Dataset>, d: Dataset)
    ensures Flatten(ds + [d]) == Flatten(ds) + d.points
  {
    assert (ds + [d])[..|ds|] == ds;
  }

  lemma LinePointsAppend(lines: seq<string>, scans: seq<Scanned>, i: nat)
    requires |lines| == |scans| && i < |lines|
    ensures LinePoints(lines[..i + 1], scans[..i + 1]) == LinePoints(lines[..i], scans[..i]) + LinePoint(lines[i], scans[i])
  {
    assert lines[..i + 1][..i] == lines[..i];
    assert scans[..i + 1][..i] == scans[..i];
  }

  /**
   * What the while (!feof (IN)) loop hands to the body: a final fgets that
   * fails at the end of a file leaves S_ unchanged, so when the last line
   * ends in a newline it is processed a second time.
   */
  function FgetsLines<T>(lines: seq<T>, endsWithNewline: bool): (r: seq<T>)
    requires |lines| > 0
    ensures |r| == |lines| + (if endsWithNewline then 1 else 0)
  {
    if endsWithNewline then lines + [lines[|lines| - 1]] else lines
  }

  /** A file holding the one line "1 2\n" yields its point twice. */
  lemma FgetsRepeatsLastLine(sc: Scanned)
    ensures LinePoints(FgetsLines(["1 2\n"], true), FgetsLines([sc], true))
      == [Point(Draw, sc.x, sc.y), Point(Draw, sc.x, sc.y)]
  {
    var line := "1 2\n";
    ParseStringLeadingChar(line);
    assert LinePoint(line, sc) == [Point(Draw, sc.x, sc.y)];
    var ls, ss := FgetsLines([line], true), FgetsLines([sc], true);
    assert ls == [line, line] && ss == [sc, sc];
    assert ls[..1] == [line] && ss[..1] == [sc];
    assert LinePoints([line], [sc]) == LinePoints([], []) + LinePoint(line, sc);
  }

  // ---------------------------------------------------------------------
  // read_data_sets
  // ---------------------------------------------------------------------

  /** One command-line argument: whether fopen succeeded, and the fgets results. */
  datatype InputFile = InputFile(name: string, readable: bool, lines: seq<string>, scans: seq<Scanned>)

  predicate WellFormed(f: InputFile) {
    |f.lines| == |f.scans|
  }

  /** The points every readable file contributes, in order. */
  function FilePoints(files: seq<InputFile>): seq<Point>
    requires forall i :: 0 <= i < |files| ==> WellFormed(files[i])
    decreases |files|
  {
    if files == [] then []
    else
      var f := files[|files| - 1];
      assert WellFormed(f);
      FilePoints(files[..|files| - 1]) + (if f.readable then LinePoints(f.lines, f.scans) else [])
  }

  /** No set of the list is empty. */
  predicate AllNonempty(ds: seq<Dataset>) {
    forall i :: 0 <= i < |ds| ==> |ds[i].points| > 0
  }

  lemma AppendAssoc<T>(a: seq<T>, b: seq<T>, c: seq<T>)
    ensures (a + b) + c == a + (b + c)
  {
  }

  /** Stepping the "(no) empty set" bookkeeping over one more set. */
  lemma AllNonemptyAppend(ds: seq<Dataset>, d: Dataset)
    ensures AllNonempty(ds + [d]) <==> AllNonempty(ds) && |d.points| > 0
  {
    assert forall i :: 0 <= i < |ds| ==> (ds + [d])[i] == ds[i];
    assert (ds + [d])[|ds|] == d;
  }

  lemma FilePointsStep(files: seq<InputFile>, n: nat)
    requires n < |files| && forall i :: 0 <= i < |files| ==> WellFormed(files[i])
    ensures FilePoints(files[..n + 1]) == FilePoints(files[..n])
      + (if files[n].readable then LinePoints(files[n].lines, files[n].scans) else [])
  {
    assert files[..n + 1][..n] == files[..n];
  }

  /** The reader's list bookkeeping at one moment, as a value (see Reader). */
  datatype Progress = Progress(sets: seq<Dataset>, current: Dataset, hasCurrent: bool,
                               attached: bool, numDatasets: int, isNewSet: bool)

  /** The datasets reachable from first_dataset in that state. */
  function Reachable(p: Progress): (l: seq<Dataset>)
    ensures p.sets <= l
  {
    if p.hasCurrent && p.attached then p.sets + [p.current] else p.sets
  }

  /**
   * The loop invariant of the corrected ReadFile: before is the list as
   * the file was opened, done the points its lines have given so far.
   */
  ghost predicate Reading(before: seq<Dataset>, name: string, done: seq<Point>, p: Progress) {
    && p.attached && p.numDatasets == |Reachable(p)|
    && AllNonempty(before) && AllNonempty(p.sets)
    && (p.isNewSet && p.hasCurrent ==> |p.current.points| > 0)
    && (!p.isNewSet ==> p.hasCurrent && before <= p.sets)
    && before <= Reachable(p)
    && Flatten(Reachable(p)) == Flatten(before) + done
    && (forall k :: |before| <= k < |Reachable(p)| ==> Reachable(p)[k].fileName == Some(name))
  }

  /** What one pass of the loop body does to the bookkeeping (ReadLine's contract on values). */
  ghost predicate LineStep(p: Progress, q: Progress, line: string, name: string, sc: Scanned) {
    && q.hasCurrent
    && (p.isNewSet ==> q.numDatasets == p.numDatasets + 1 && Reachable(p) == q.sets)
    && (!p.isNewSet ==> q.numDatasets == p.numDatasets && q.sets == p.sets)
    && (p.isNewSet && (p.attached || !p.hasCurrent) ==> q.attached)
    && (!p.isNewSet ==> q.attached == p.attached)
    && q.current.points == (if p.isNewSet then [] else p.current.points) + LinePoint(line, sc)
    && (p.isNewSet ==> q.current.fileName == Some(name))
    && (!p.isNewSet ==> q.current.fileName == p.current.fileName)
    && q.isNewSet == (|line| == 1 && !p.isNewSet && |p.current.points| > 0)
  }

  /** One line keeps the loop invariant, adding that line's points. */
  lemma ReadingStep(before: seq<Dataset>, name: string, done: seq<Point>, line: string, sc: Scanned, p: Progress, q: Progress)
    requires Reading(before, name, done, p) && (p.isNewSet || p.hasCurrent)
    requires LineStep(p, q, line, name, sc)
    ensures Reading(before, name, done + LinePoint(line, sc), q)
  {
    var lp := LinePoint(line, sc);
    assert Reachable(q) == q.sets + [q.current];
    FlattenAppend(q.sets, q.current);
    if p.isNewSet {
      NewSetStep(before, name, done, lp, p, q);
    } else {
      assert Reachable(p) == p.sets + [p.current];
      FlattenAppend(p.sets, p.current);
      AppendAssoc(Flatten(p.sets), p.current.points, lp);
    }
    AppendAssoc(Flatten(before), done, lp);
  }

  /** The case of ReadingStep where the line opens a set: the old list is kept whole. */
  lemma NewSetStep(before: seq<Dataset>, name: string, done: seq<Point>, lp: seq<Point>, p: Progress, q: Progress)
    requires Reading(before, name, done, p) && p.isNewSet
    requires q.hasCurrent && q.attached && q.sets == Reachable(p) && q.numDatasets == p.numDatasets + 1
    requires q.current.points == lp && q.current.fileName == Some(name)
    ensures AllNonempty(q.sets) && before <= q.sets && q.numDatasets == |Reachable(q)|
    ensures forall k :: |before| <= k < |Reachable(q)| ==> Reachable(q)[k].fileName == Some(name)
  {
    if p.hasCurrent {
      AllNonemptyAppend(p.sets, p.current);
    }
    assert Reachable(q) == q.sets + [q.current];
  }

  /**
   * The state read_data_sets keeps: the sets reachable from first_dataset,
   * the set dataset_p points at, and the globals the line types write.
   *
   * The reachable list is sets followed by current when attached holds,
   * i.e. when previous_dataset (== dataset_p) is the tail of the list. It is
   * cleared when an empty set has been freed at the end of a file.
   * headFreed records that the freed set was the head: first_dataset then
   * points at freed memory, and the sets linked after it are reachable
   * only through that record, so the list holds none of them.
   */
  class Reader {
    var sets: seq<Dataset>
    var current: Dataset
    var hasCurrent: bool
    var attached: bool
    var numDatasets: int
    var isNewSet: bool
    var headFreed: bool
    var defaultDrawMarks: bool
    var titleText: Option<string>
    var xUnitText: Option<string>
    var yUnitText: Option<string>
    const dflt: Defaults

    /** The datasets reachable from first_dataset. */
    function List(): seq<Dataset>
      reads this
    {
      Reachable(Snapshot())
    }

    /** The list bookkeeping as a value. */
    function Snapshot(): Progress
      reads this
    {
      Progress(sets, current, hasCurrent, attached, numDatasets, isNewSet)
    }

    /**
     * What the corrected reader keeps between files: the list is intact,
     * numDatasets counts it and no listed set is empty.
     */
    predicate Consistent()
      reads this
    {
      attached && numDatasets == |List()|
      && AllNonempty(List())
    }

    /** The globals as main leaves them before reading: title "gxgraph", units "X" and "Y". */
    constructor (dflt: Defaults)
      ensures this.dflt == dflt && sets == [] && !hasCurrent && attached && numDatasets == 0 && !headFreed
      ensures !defaultDrawMarks && titleText == Some("gxgraph")
      ensures xUnitText == Some("X") && yUnitText == Some("Y")
      ensures List() == [] && Consistent()
    {
      this.dflt := dflt;
      sets := [];
      current := StartSet(0, "", dflt);
      hasCurrent := false;
      attached := true;
      numDatasets := 0;
      isNewSet := false;
      headFreed := false;
      defaultDrawMarks := false;
      titleText := Some("gxgraph");
      xUnitText := Some("X");
      yUnitText := Some("Y");
    }

    /** A newly opened file starts a new set with its first line. */
    method OpenFile()
      modifies this
      ensures isNewSet
      ensures sets == old(sets) && current == old(current) && hasCurrent == old(hasCurrent)
      ensures attached == old(attached) && numDatasets == old(numDatasets) && headFreed == old(headFreed)
      ensures defaultDrawMarks == old(defaultDrawMarks) && titleText == old(titleText)
      ensures xUnitText == old(xUnitText) && yUnitText == old(yUnitText)
    {
      isNewSet := true;
    }

    /**
     * The is_new_set step: a fresh set from new_dataset, linked after
     * previous_dataset. It reaches the list only if previous_dataset is
     * its tail (or there was no set yet, when it becomes first_dataset).
     */
    method NewSetIfPending(fileName: string)
      requires numDatasets >= 0
      modifies this
      ensures !isNewSet && numDatasets >= 0
      ensures !old(isNewSet) ==>
        sets == old(sets) && current == old(current) && attached == old(attached)
        && hasCurrent == old(hasCurrent) && numDatasets == old(numDatasets)
      ensures old(isNewSet) ==>
        hasCurrent && current == StartSet(old(numDatasets), fileName, dflt) && numDatasets == old(numDatasets) + 1
      ensures old(isNewSet) && (old(attached) || !old(hasCurrent)) ==> attached && List() == old(List()) + [current]
      ensures old(isNewSet) && !old(attached) && old(hasCurrent) ==> !attached && List() == old(List())
      ensures old(isNewSet) ==> old(List()) == sets
      ensures headFreed == old(headFreed)
      ensures defaultDrawMarks == old(defaultDrawMarks) && titleText == old(titleText)
      ensures xUnitText == old(xUnitText) && yUnitText == old(yUnitText)
    {
      if isNewSet {
        var d := StartSet(numDatasets, fileName, dflt);
        if hasCurrent && attached {
          sets := sets + [current];
        } else if !hasCurrent {
          attached := true;
        }
        current := d;
        hasCurrent := true;
        isNewSet := false;
        numDatasets := numDatasets + 1;
      }
    }

    /**
     * The rest of the loop body for one line: a one-character line (a bare
     * newline) asks for a new set if the current one has points; any other
     * line is classified and applied to the current set and the globals.
     */
    method ApplyLine(line: string, sc: Scanned)
      requires hasCurrent && !isNewSet
      modifies this
      ensures sets == old(sets) && hasCurrent && attached == old(attached) && numDatasets == old(numDatasets)
      ensures headFreed == old(headFreed)
      ensures isNewSet == (|line| == 1 && |old(current).points| > 0)
      ensures |line| == 1 ==> current == old(current)
      ensures |line| != 1 ==> current == ApplyRecord(old(current), ParseString(line), line, sc)
      ensures current.points == old(current).points + LinePoint(line, sc)
      ensures current.fileName == old(current).fileName
      ensures var t := if |line| == 1 then STRING_NOP else ParseString(line);
        && titleText == (if t == STRING_SET_TITLE then RestAt(line, 1) else old(titleText))
        && xUnitText == (if t == STRING_SET_XUNIT_TEXT then RestAt(line, 1) else old(xUnitText))
        && yUnitText == (if t == STRING_SET_YUNIT_TEXT then RestAt(line, 1) else old(yUnitText))
        && defaultDrawMarks == (old(defaultDrawMarks) || t == STRING_SET_LARGE_PIXELS)
    {
      if |line| == 1 {
        if |current.points| > 0 {
          isNewSet := true;
        }
        return;
      }
      var t := ParseString(line);
      current := ApplyRecord(current, t, line, sc);
      if t == STRING_SET_TITLE {
        titleText := RestAt(line, 1);
      } else if t == STRING_SET_LARGE_PIXELS {
        defaultDrawMarks := true;
      } else if t == STRING_SET_XUNIT_TEXT {
        xUnitText := RestAt(line, 1);
      } else if t == STRING_SET_YUNIT_TEXT {
        yUnitText := RestAt(line, 1);
      }
    }

    /** One pass of the while (!feof) body. */
    method ReadLine(line: string, fileName: string, sc: Scanned)
      requires numDatasets >= 0 && (isNewSet || hasCurrent)
      modifies this
      ensures hasCurrent && numDatasets >= 0 && headFreed == old(headFreed)
      ensures old(isNewSet) ==> numDatasets == old(numDatasets) + 1 && old(List()) == sets
      ensures !old(isNewSet) ==> numDatasets == old(numDatasets) && sets == old(sets)
      ensures old(isNewSet) && (old(attached) || !old(hasCurrent)) ==> attached
      ensures old(isNewSet) && !old(attached) && old(hasCurrent) ==> !attached
      ensures !old(isNewSet) ==> attached == old(attached)
      ensures current.points == (if old(isNewSet) then [] else old(current).points) + LinePoint(line, sc)
      ensures old(isNewSet) ==> current.fileName == Some(fileName)
      ensures !old(isNewSet) ==> current.fileName == old(current).fileName
      ensures isNewSet == (|line| == 1 && (!old(isNewSet) && |old(current).points| > 0))
    {
      NewSetIfPending(fileName);
      ApplyLine(line, sc);
    }

    /**
     * The end of a file as written: an empty current set is unlinked from
     * its predecessor, counted out and freed, but previous_dataset and
     * dataset_p still point at it. When it has no predecessor, because it
     * is the first set, first_dataset keeps pointing at it too.
     */
    method CloseFileAsWritten()
      modifies this
      ensures sets == old(sets) && current == old(current) && hasCurrent == old(hasCurrent)
      ensures isNewSet == old(isNewSet) && titleText == old(titleText) && defaultDrawMarks == old(defaultDrawMarks)
      ensures xUnitText == old(xUnitText) && yUnitText == old(yUnitText)
      ensures old(hasCurrent) && |old(current).points| == 0 ==>
        !attached && numDatasets == old(numDatasets) - 1 && List() == old(sets)
      ensures !(old(hasCurrent) && |old(current).points| == 0) ==>
        attached == old(attached) && numDatasets == old(numDatasets)
      ensures headFreed == (old(headFreed) ||
        (old(hasCurrent) && |old(current).points| == 0 && old(attached) && old(sets) == []))
    {
      if hasCurrent && |current.points| == 0 {
        if attached && sets == [] {
          headFreed := true;
        }
        attached := false;
        numDatasets := numDatasets - 1;
      }
    }

    /**
     * The end of a file as evidently intended: the empty current set is
     * dropped and the set before it becomes the tail again.
     */
    method CloseFile()
      requires attached
      modifies this
      ensures attached && isNewSet == old(isNewSet) && headFreed == old(headFreed)
      ensures titleText == old(titleText) && defaultDrawMarks == old(defaultDrawMarks)
      ensures xUnitText == old(xUnitText) && yUnitText == old(yUnitText)
      ensures old(hasCurrent) && |old(current).points| == 0 ==>
        numDatasets == old(numDatasets) - 1 && List() == old(sets)
      ensures !(old(hasCurrent) && |old(current).points| == 0) ==>
        numDatasets == old(numDatasets) && List() == old(List())
    {
      if hasCurrent && |current.points| == 0 {
        if |sets| > 0 {
          assert sets == sets[..|sets| - 1] + [sets[|sets| - 1]];
          current := sets[|sets| - 1];
          sets := sets[..|sets| - 1];
        } else {
          hasCurrent := false;
        }
        numDatasets := numDatasets - 1;
      }
    }

    /**
     * One file, as evidently intended: each line goes through the loop body
     * once; the empty set a trailing blank line leaves is dropped. The
     * points of the file are appended to the list, in order.
     */
    method ReadFile(f: InputFile)
      requires WellFormed(f) && Consistent()
      modifies this
      ensures Consistent() && headFreed == old(headFreed)
      ensures old(List()) <= List()
      ensures Flatten(List()) == Flatten(old(List())) + LinePoints(f.lines, f.scans)
      ensures forall i :: |old(List())| <= i < |List()| ==> List()[i].fileName == Some(f.name)
    {
      ghost var before := List();
      if |f.lines| == 0 {
        return;
      }
      OpenReadFile(f.name);
      var i := 0;
      while i < |f.lines|
        invariant 0 <= i <= |f.lines|
        invariant ReadingFile(before, f.name, LinePoints(f.lines[..i], f.scans[..i]))
        invariant isNewSet || hasCurrent
        invariant i > 0 ==> hasCurrent
        invariant headFreed == old(headFreed)
      {
        ReadFileLine(before, f, i);
        i := i + 1;
      }
      assert f.lines[..i] == f.lines && f.scans[..i] == f.scans;
      CloseReadFile(before, f.name, LinePoints(f.lines, f.scans));
    }

    /** The loop invariant of ReadFile, on the current state. */
    ghost predicate ReadingFile(before: seq<Dataset>, name: string, done: seq<Point>)
      reads this
    {
      Reading(before, name, done, Snapshot())
    }

    /** Opening a file establishes the loop invariant of ReadFile, with no points yet. */
    method OpenReadFile(name: string)
      requires Consistent()
      modifies this
      ensures ReadingFile(old(List()), name, []) && isNewSet && headFreed == old(headFreed)
    {
      ghost var before := List();
      OpenFile();
      if hasCurrent {
        AllNonemptyAppend(sets, current);
      }
      assert Flatten(List()) == Flatten(before) + [];
    }

    /** One line of the corrected ReadFile keeps its invariant. */
    method ReadFileLine(ghost before: seq<Dataset>, f: InputFile, i: nat)
      requires WellFormed(f) && i < |f.lines|
      requires ReadingFile(before, f.name, LinePoints(f.lines[..i], f.scans[..i])) && (isNewSet || hasCurrent)
      modifies this
      ensures ReadingFile(before, f.name, LinePoints(f.lines[..i + 1], f.scans[..i + 1])) && hasCurrent
      ensures headFreed == old(headFreed)
    {
      LinePointsAppend(f.lines, f.scans, i);
      ghost var p := Snapshot();
      ReadLine(f.lines[i], f.name, f.scans[i]);
      ReadingStep(before, f.name, LinePoints(f.lines[..i], f.scans[..i]), f.lines[i], f.scans[i], p, Snapshot());
    }

    /** The corrected end of file turns the loop invariant into Consistent. */
    method CloseReadFile(ghost before: seq<Dataset>, name: string, ghost done: seq<Point>)
      requires ReadingFile(before, name, done) && hasCurrent
      modifies this
      ensures Consistent() && before <= List() && headFreed == old(headFreed)
      ensures Flatten(List()) == Flatten(before) + done
      ensures forall k :: |before| <= k < |List()| ==> List()[k].fileName == Some(name)
    {
      ghost var s0, c0 := sets, current;
      FlattenAppend(s0, c0);
      AllNonemptyAppend(s0, c0);
      CloseFile();
    }

    /**
     * One file as written: the lines fgets returns, the last one repeated
     * when it ends in a newline, then an empty trailing set freed with
     * previous_dataset left pointing at it.
     */
    method ReadFileAsWritten(f: InputFile, endsWithNewline: bool)
      requires WellFormed(f) && |f.lines| > 0 && numDatasets >= 0
      modifies this
      ensures old(List()) <= List()
    {
      ghost var before := List();
      var lines := FgetsLines(f.lines, endsWithNewline);
      var scans := FgetsLines(f.scans, endsWithNewline);
      OpenFile();
      var i := 0;
      while i < |lines|
        invariant 0 <= i <= |lines| && numDatasets >= 0
        invariant i == 0 ==> isNewSet && List() == before
        invariant i > 0 ==> hasCurrent && before <= sets
      {
        ReadLine(lines[i], f.name, scans[i]);
        i := i + 1;
      }
      CloseFileAsWritten();
    }

    /**
     * read_data_sets over the command-line files, or over standard input,
     * read under the name "(stdin)", when there are none (corrected
     * end-of-file handling).
     */
    method ReadDataSets(files: seq<InputFile>, stdin: InputFile)
      requires (forall i :: 0 <= i < |files| ==> WellFormed(files[i])) && WellFormed(stdin) && Consistent()
      modifies this
      ensures Consistent() && headFreed == old(headFreed)
      ensures files != [] ==> Flatten(List()) == Flatten(old(List())) + FilePoints(files)
      ensures files == [] ==> Flatten(List()) == Flatten(old(List())) + LinePoints(stdin.lines, stdin.scans)
      ensures files == [] ==> old(List()) <= List()
      ensures files == [] ==> forall i :: |old(List())| <= i < |List()| ==> List()[i].fileName == Some("(stdin)")
    {
      if files == [] {
        ReadFile(InputFile("(stdin)", true, stdin.lines, stdin.scans));
        return;
      }
      ghost var before := List();
      var argp := 0;
      while argp < |files|
        invariant 0 <= argp <= |files| && Consistent() && headFreed == old(headFreed)
        invariant Flatten(List()) == Flatten(before) + FilePoints(files[..argp])
      {
        var f := files[argp];
        ghost var acc := Flatten(List());
        FilePointsStep(files, argp);
        if f.readable {
          ReadFile(f);
        }
        AppendAssoc(Flatten(before), FilePoints(files[..argp]),
                    if f.readable then LinePoints(f.lines, f.scans) else []);
        argp := argp + 1;
      }
      assert files[..argp] == files;
    }
  }

  // ---------------------------------------------------------------------
  // The two defects of read_data_sets, on a concrete pair of files
  // ---------------------------------------------------------------------

  /**
   * File a holds "1 2\n\n" and file b "3 4\n". The repeated final read of
   * a leaves an empty third line's set, which is freed while
   * previous_dataset still points at it, so b's set is linked onto the
   * freed record and never listed, though numDatasets counts it.
   */
  method TrailingBlankLineAsWritten(sa: Scanned, sb: Scanned) returns (r: Reader)
    ensures |r.List()| == 1 && r.numDatasets == 2
    ensures r.List()[0].points == [Point(Draw, sa.x, sa.y)]
  {
    r := new Reader(INITIAL_DEFAULTS);
    var blank := Scanned(0.0, 0.0, 0.0, 0.0, 0, None);
    ParseStringLeadingChar("1 2\n");
    ParseStringLeadingChar("3 4\n");
    // file a: "1 2\n", "\n", and "\n" once more after the failing fgets
    r.OpenFile();
    r.ReadLine("1 2\n", "a", sa);
    r.ReadLine("\n", "a", blank);
    r.ReadLine("\n", "a", blank);
    r.CloseFileAsWritten();
    // file b: "3 4\n" twice
    r.OpenFile();
    r.ReadLine("3 4\n", "b", sb);
    r.ReadLine("3 4\n", "b", sb);
    r.CloseFileAsWritten();
  }

  /** The same files read by the corrected reader list both sets. */
  method TrailingBlankLine(sa: Scanned, sb: Scanned) returns (r: Reader)
    ensures |r.List()| == 2 && r.numDatasets == 2 && r.Consistent()
    ensures r.List()[0].points == [Point(Draw, sa.x, sa.y)]
    ensures r.List()[1].points == [Point(Draw, sb.x, sb.y)]
  {
    r := new Reader(INITIAL_DEFAULTS);
    var blank := Scanned(0.0, 0.0, 0.0, 0.0, 0, None);
    PointThenBlank(sa, blank);
    OnePoint(sb);
    assert Flatten([]) == [];
    r.ReadFile(InputFile("a", true, ["1 2\n", "\n"], [sa, blank]));
    ghost var first := r.List();
    r.ReadFile(InputFile("b", true, ["3 4\n"], [sb]));
    TwoSets(first, r.List(), Point(Draw, sa.x, sa.y), Point(Draw, sb.x, sb.y));
  }

  /**
   * File a holds only "\n" and file b "3 4\n". The set a starts is empty
   * and is freed, but it was the first set: the search for its predecessor
   * finds none, so first_dataset still points at the freed record, and b's
   * set is linked after it. The list holds no set, though numDatasets
   * counts b's.
   */
  method FirstFileBlankAsWritten(sb: Scanned) returns (r: Reader)
    ensures r.headFreed && r.List() == [] && r.numDatasets == 1
    ensures r.current.points == [Point(Draw, sb.x, sb.y), Point(Draw, sb.x, sb.y)]
  {
    r := new Reader(INITIAL_DEFAULTS);
    var blank := Scanned(0.0, 0.0, 0.0, 0.0, 0, None);
    ParseStringLeadingChar("3 4\n");
    // file a: "\n", and "\n" once more after the failing fgets
    r.OpenFile();
    r.ReadLine("\n", "a", blank);
    r.ReadLine("\n", "a", blank);
    r.CloseFileAsWritten();
    // file b: "3 4\n" twice
    r.OpenFile();
    r.ReadLine("3 4\n", "b", sb);
    r.ReadLine("3 4\n", "b", sb);
    r.CloseFileAsWritten();
  }

  /** The same files read by the corrected reader list b's set, and no record is left dangling. */
  method FirstFileBlank(sb: Scanned) returns (r: Reader)
    ensures !r.headFreed && r.Consistent() && r.numDatasets == 1
    ensures |r.List()| == 1 && r.List()[0].points == [Point(Draw, sb.x, sb.y)]
  {
    r := new Reader(INITIAL_DEFAULTS);
    var blank := Scanned(0.0, 0.0, 0.0, 0.0, 0, None);
    assert LinePoints(["\n"], [blank]) == LinePoints([], []) + LinePoint("\n", blank);
    OnePoint(sb);
    assert Flatten([]) == [];
    r.ReadFile(InputFile("a", true, ["\n"], [blank]));
    r.ReadFile(InputFile("b", true, ["3 4\n"], [sb]));
    SingleSet(r.List());
  }

  /** A list of nonempty sets extending a one-point list by one point is two one-point sets. */
  lemma TwoSets(first: seq<Dataset>, all: seq<Dataset>, pa: Point, pb: Point)
    requires AllNonempty(first) && AllNonempty(all) && first <= all
    requires Flatten(first) == [] + [pa] && Flatten(all) == Flatten(first) + [pb]
    ensures |all| == 2 && all[0].points == [pa] && all[1].points == [pb]
  {
    SingleSet(first);
    var rest := all[|first|..];
    assert all == first + rest;
    FlattenConcat(first, rest);
    SuffixNonempty(all, |first|);
    SingleSet(rest);
  }

  lemma SuffixNonempty(ds: seq<Dataset>, k: nat)
    requires AllNonempty(ds) && k <= |ds|
    ensures AllNonempty(ds[k..])
  {
    assert forall i :: 0 <= i < |ds| - k ==> ds[k..][i] == ds[k + i];
  }

  /** The lines of file a give its one point. */
  lemma PointThenBlank(sa: Scanned, blank: Scanned)
    ensures LinePoints(["1 2\n", "\n"], [sa, blank]) == [Point(Draw, sa.x, sa.y)]
  {
    ParseStringLeadingChar("1 2\n");
    assert ["1 2\n", "\n"][..1] == ["1 2\n"];
    assert [sa, blank][..1] == [sa];
    assert LinePoints(["1 2\n"], [sa]) == LinePoints([], []) + LinePoint("1 2\n", sa);
  }

  /** The line of file b gives its one point. */
  lemma OnePoint(sb: Scanned)
    ensures LinePoints(["3 4\n"], [sb]) == [Point(Draw, sb.x, sb.y)]
  {
    ParseStringLeadingChar("3 4\n");
    assert LinePoints(["3 4\n"], [sb]) == LinePoints([], []) + LinePoint("3 4\n", sb);
  }

  lemma {:induction false} FlattenConcat(a: seq<Dataset>, b: seq<Dataset>)
    ensures Flatten(a + b) == Flatten(a) + Flatten(b)
    decreases |b|
  {
    if b == [] {
      assert a + b == a;
    } else {
      var b0, last := b[..|b| - 1], b[|b| - 1];
      assert b == b0 + [last];
      assert a + b == (a + b0) + [last];
      calc {
        Flatten(a + b);
        Flatten((a + b0) + [last]);
        { FlattenAppend(a + b0, last); }
        Flatten(a + b0) + last.points;
        { FlattenConcat(a, b0); }
        Flatten(a) + Flatten(b0) + last.points;
        { FlattenAppend(b0, last); }
        Flatten(a) + Flatten(b0 + [last]);
      }
    }
  }

  /** A list of nonempty sets holds at least as many points as sets. */
  lemma {:induction false} FlattenLength(ds: seq<Dataset>)
    requires AllNonempty(ds)
    ensures |Flatten(ds)| >= |ds|
    decreases |ds|
  {
    if ds != [] {
      FlattenLength(ds[..|ds| - 1]);
    }
  }

  /** Nonempty sets holding a single point in all are one set. */
  lemma SingleSet(ds: seq<Dataset>)
    requires AllNonempty(ds)
    requires |Flatten(ds)| == 1
    ensures |ds| == 1 && ds[0].points == Flatten(ds)
  {
    FlattenLength(ds);
    assert ds == [] + [ds[0]];
    FlattenAppend([], ds[0]);
  }

  // ---------------------------------------------------------------------
  // put_datasets_in_window
  // ---------------------------------------------------------------------

  /**
   * The bounding-box loops: each coordinate's smallest value, starting from
   * huge, and its largest, starting from -huge.
   */
  method DataBounds(sets: seq<Dataset>, huge: real) returns (minX: real, maxX: real, minY: real, maxY: real)
    ensures Bounds(Flatten(sets), huge, minX, maxX, minY, maxY)
  {
    minX, minY := huge, huge;
    maxX, maxY := -huge, -huge;
    var i := 0;
    while i < |sets|
      invariant 0 <= i <= |sets|
      invariant Bounds(Flatten(sets[..i]), huge, minX, maxX, minY, maxY)
    {
      FlattenAppend(sets[..i], sets[i]);
      assert sets[..i + 1] == sets[..i] + [sets[i]];
      minX, maxX, minY, maxY := ScanSet(Flatten(sets[..i]), sets[i].points, huge, minX, maxX, minY, maxY);
      i := i + 1;
    }
    assert sets[..i] == sets;
  }

  /** The inner loop of DataBounds: one set's points widen the bounds seen so far. */
  method ScanSet(ghost seen: seq<Point>, pts: seq<Point>, huge: real, minX0: real, maxX0: real, minY0: real, maxY0: real)
    returns (minX: real, maxX: real, minY: real, maxY: real)
    requires Bounds(seen, huge, minX0, maxX0, minY0, maxY0)
    ensures Bounds(seen + pts, huge, minX, maxX, minY, maxY)
  {
    minX, maxX, minY, maxY := minX0, maxX0, minY0, maxY0;
    var j := 0;
    assert seen + pts[..j] == seen;
    while j < |pts|
      invariant 0 <= j <= |pts|
      invariant Bounds(seen + pts[..j], huge, minX, maxX, minY, maxY)
    {
      var p := pts[j];
      assert seen + pts[..j + 1] == (seen + pts[..j]) + [p];
      BoundsStep(seen + pts[..j], p, huge, minX, maxX, minY, maxY);
      if p.y < minY { minY := p.y; }
      if p.y > maxY { maxY := p.y; }
      if p.x < minX { minX := p.x; }
      if p.x > maxX { maxX := p.x; }
      j := j + 1;
    }
    assert pts[..j] == pts;
  }

  /**
   * The bounds of a run of points, starting from huge and -huge: every
   * point lies inside, and each bound is huge or reached by some point.
   */
  ghost predicate Bounds(ps: seq<Point>, huge: real, minX: real, maxX: real, minY: real, maxY: real) {
    && minX <= huge && minY <= huge && maxX >= -huge && maxY >= -huge
    && (forall k :: 0 <= k < |ps| ==> minX <= ps[k].x <= maxX && minY <= ps[k].y <= maxY)
    && (minX == huge || exists k :: 0 <= k < |ps| && ps[k].x == minX)
    && (maxX == -huge || exists k :: 0 <= k < |ps| && ps[k].x == maxX)
    && (minY == huge || exists k :: 0 <= k < |ps| && ps[k].y == minY)
    && (maxY == -huge || exists k :: 0 <= k < |ps| && ps[k].y == maxY)
  }

  lemma BoundsStep(ps: seq<Point>, p: Point, huge: real, minX: real, maxX: real, minY: real, maxY: real)
    requires Bounds(ps, huge, minX, maxX, minY, maxY)
    ensures Bounds(ps + [p], huge,
      if p.x < minX then p.x else minX, if p.x > maxX then p.x else maxX,
      if p.y < minY then p.y else minY, if p.y > maxY then p.y else maxY)
  {
    var qs := ps + [p];
    assert forall k :: 0 <= k < |ps| ==> qs[k] == ps[k];
    assert qs[|ps|] == p;
  }

  /**
   * The bounds of a run of points are determined by the run and the start
   * value: there is one minimum and one maximum per coordinate.
   */
  lemma BoundsUnique(ps: seq<Point>, huge: real, a: (real, real, real, real), b: (real, real, real, real))
    requires Bounds(ps, huge, a.0, a.1, a.2, a.3) && Bounds(ps, huge, b.0, b.1, b.2, b.3)
    ensures a == b
  {
    if a.0 != huge && b.0 != huge {
      var i :| 0 <= i < |ps| && ps[i].x == a.0;
      var j :| 0 <= j < |ps| && ps[j].x == b.0;
      assert a.0 <= ps[j].x && b.0 <= ps[i].x;
    }
    if a.1 != -huge && b.1 != -huge {
      var i :| 0 <= i < |ps| && ps[i].x == a.1;
      var j :| 0 <= j < |ps| && ps[j].x == b.1;
      assert a.1 >= ps[j].x && b.1 >= ps[i].x;
    }
    if a.2 != huge && b.2 != huge {
      var i :| 0 <= i < |ps| && ps[i].y == a.2;
      var j :| 0 <= j < |ps| && ps[j].y == b.2;
      assert a.2 <= ps[j].y && b.2 <= ps[i].y;
    }
    if a.3 != -huge && b.3 != -huge {
      var i :| 0 <= i < |ps| && ps[i].y == a.3;
      var j :| 0 <= j < |ps| && ps[j].y == b.3;
      assert a.3 >= ps[j].y && b.3 >= ps[i].y;
    }
  }

  /** The 5% padding on each side of a range. */
  function Pad(lo: real, hi: real): (r: (real, real))
    ensures (r.0 + r.1) / 2.0 == (lo + hi) / 2.0
    ensures r.1 - r.0 == 1.1 * (hi - lo)
    ensures lo <= hi ==> r.0 <= lo && hi <= r.1
  {
    var pad := (hi - lo) * 0.05;
    (lo - pad, hi + pad)
  }

  /** A -x low,hi / -y low,hi range, used only when hi > low (the defaults 1,0 never are). */
  datatype Range = Range(low: real, hi: real)

  const NO_RANGE: Range := Range(1.0, 0.0)

  function Override(r: Range, lo: real, hi: real): (real, real) {
    if r.hi > r.low then (r.low, r.hi) else (lo, hi)
  }

  /**
   * put_datasets_in_window: the window takes the list and a world box,
   * either the one given or the data's bounding box (or the ranges
   * overriding it) padded by 5% on each side.
   */
  method PutDatasetsInWindow(w: Windows.Window, sets: seq<Dataset>, given: Option<World>,
                             xRange: Range, yRange: Range, huge: real)
    modifies w
    ensures w.datasets == sets
    ensures given.Some? ==> w.world == old(w.world).(x0 := given.value.x0, y0 := given.value.y0,
                                                    x1 := given.value.x1, y1 := given.value.y1)
    ensures given.None? ==> w.world.scaleX == old(w.world.scaleX) && w.world.scaleY == old(w.world.scaleY)
    ensures given.None? && xRange.hi > xRange.low ==> (w.world.x0, w.world.x1) == Pad(xRange.low, xRange.hi)
    ensures given.None? && yRange.hi > yRange.low ==> (w.world.y0, w.world.y1) == Pad(yRange.low, yRange.hi)
    ensures given.None? ==> exists minX, maxX, minY, maxY ::
      (Bounds(Flatten(sets), huge, minX, maxX, minY, maxY)
       && (w.world.x0, w.world.x1) == (var o := Override(xRange, minX, maxX); Pad(o.0, o.1))
       && (w.world.y0, w.world.y1) == (var o := Override(yRange, minY, maxY); Pad(o.0, o.1)))
    ensures given.None? && xRange.hi <= xRange.low && yRange.hi <= yRange.low && |Flatten(sets)| > 0 ==>
      forall k :: 0 <= k < |Flatten(sets)| ==>
        w.world.x0 <= Flatten(sets)[k].x <= w.world.x1 && w.world.y0 <= Flatten(sets)[k].y <= w.world.y1
    ensures w.width == old(w.width) && w.height == old(w.height) && w.next == old(w.next) && w.prev == old(w.prev)
    ensures w.orgX == old(w.orgX) && w.oppX == old(w.oppX) && w.orgY == old(w.orgY) && w.oppY == old(w.oppY)
  {
    w.datasets := sets;
    if given.Some? {
      var g := given.value;
      w.world := w.world.(x0 := g.x0, y0 := g.y0, x1 := g.x1, y1 := g.y1);
    } else {
      var minX, maxX, minY, maxY := DataBounds(sets, huge);
      ghost var ox := Override(xRange, minX, maxX);
      ghost var oy := Override(yRange, minY, maxY);
      assert Bounds(Flatten(sets), huge, minX, maxX, minY, maxY);
      if xRange.hi > xRange.low {
        minX, maxX := xRange.low, xRange.hi;
      }
      if yRange.hi > yRange.low {
        minY, maxY := yRange.low, yRange.hi;
      }
      if |Flatten(sets)| > 0 {
        assert Flatten(sets)[0] in Flatten(sets);
      }
      var px := Pad(minX, maxX);
      var py := Pad(minY, maxY);
      assert px == Pad(ox.0, ox.1) && py == Pad(oy.0, oy.1);
      w.world := w.world.(x0 := px.0, x1 := px.1, y0 := py.0, y1 := py.1);
    }
  }
}
