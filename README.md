# gxgraph, modelled in Dafny

gxgraph is a GTK re-implementation of the X11 `xgraph` plotter. It reads
data sets from text files. In these files a line holds a point (`x y`), an
`x,y` pair, a `move`/`draw`/`text` record, a `"name"` line, or a `$`
directive or a `Keyword:` line that sets a title, unit text, mark type and
so on. A blank line starts a new set. gxgraph puts the sets into a window:
the world box is the data's bounding box padded by 10 %. It draws a title,
a legend, the grid and axis labels, and each set as clipped poly-lines and
marks. All drawing goes through a painter, a table of eight drawing
operations. A GTK/Cairo painter draws on screen. PostScript and SVG
painters write the same drawing to a file or to the `lp` print pipe. The
user can drag a zoom rectangle (the "moving ants" lasso), and the new
window opens on the dragged world box.

The model follows the program's structure, one module per component:

- `GxTypes` (gx_types.dfy): the shared value types. These are world and
  view boxes, points, segments and marks, data sets, the painter metrics,
  and the painter call datatype `Call`. `Call` is the painter's vtable
  turned into data: the drawing code returns the sequence of calls it
  makes. Also here are the group-nesting predicates `Balanced` and
  `AllSound`, and `Trunc`, the C cast from `double` to `int`.
- `Numeric` (numeric.dfy): powers of ten and decades. `IsDecade(v, e)`
  means 10^e <= v < 10^(e+1), and it stands in for `floor(log10(v))`.
- `Parser` (parser.dfy): `string_count_words`, `string_strdup_word`,
  `string_strdup_rest`, `parse_string`, `parse_mark_type` and the comma
  split of `x,y` pairs.
- `Datasets` (datasets.dfy): the reader state of `read_data_sets` as a
  class (`Reader`), `new_dataset`, the effect of one record, the data
  bounds and `put_datasets_in_window`.
- `Windows` (window.dfy): `window_t` as a class with its doubly linked
  window list (`Session`), `compute_transform`, `new_window` and
  `window_delete`.
- `Clipping` (clip.dfy): the Cohen–Sutherland clipper of
  `gxgraph_draw_data`, proved to terminate, to keep clipped points on the
  original segment and to return points inside the box.
- `Grid` (grid.dfy): `round_up`, the grid cursor (`init_grid` and
  `step_grid`, with their file-static state as a class), the log
  multiplier tables and the axis exponent.
- `Draw` (draw.dfy): `gxgraph_draw_window` and its parts (title, legend,
  grid and axis, data). Each part is a method that returns its painter
  calls and is proved equal to a specification function. It is also
  proved to open and close groups in matched pairs.
- `Gtk`, `PostScript`, `Svg` (gtk_painter.dfy, ps_painter.dfy,
  svg_painter.dfy): the three painters as classes. Each keeps its cached
  attributes and an append-only log of what it emits: Cairo commands,
  PostScript commands or SVG elements. Each painter method is proved to
  append exactly what the pure `Step` of its back-end yields. The GTK
  painter also holds the zoom-drag event handlers.
- `Ants` (moving_ants.dfy): the lasso's backing store and its four
  border strips.
- `Hardcopy` (hardcopy.dfy): the hardcopy dialog's state. The chosen
  device decides the destination. An OK response draws the window once
  through a fresh PostScript or SVG painter and closes it.

Text formatting (`fprintf`) is not modelled. Every output stream is a
sequence of typed commands (`PsCmd`, `SvgCmd`, `CairoCmd`, `AntsCmd`)
that carry the numbers and strings the format string would print.
`double` is `real`, and C's truncating `(int)` is `Trunc`. Library calls
(`log10`, `atof`, `sscanf`, `write_value`, Pango extents) are passed in
as parameters.

Where the code and its documentation disagree, the model follows the
code: `compute_transform` returns -1 when the plot area is empty, but
`gxgraph_draw_window` ignores that and draws anyway.

Each defect under Findings is modelled twice: once as written, with a
lemma that shows the defect, and once corrected. The drawing and reading
code uses the corrected half wherever a defect lies in its path, and
"## Left out" names each member concerned:

- the data reader (`Reader.ReadFile`, `Reader.ReadDataSets`) reads each
  line once, drops an empty set at the end of a file so that the next
  file's set follows the last kept one (also when the dropped set is the
  first), and counts the words of a `$scale_marks` line with the
  corrected `string_count_words`;
- the PostScript painter escapes the backslash as well as the
  parentheses;
- the SVG painter writes a title at the 18-point size it lays it out
  for, not at the fixed 11 points.

The reader's defects are also modelled as written, in
`Reader.ReadFileAsWritten` and `Reader.CloseFileAsWritten`. The window
list is modelled both ways: `Session.ZoomFromMiddle` as written and
`Session.ZoomInsert` corrected.

## Model

| member | source | states |
|---|---|---|
| GxTypes.PainterMetrics | gtk_painter.c:170-178 | every painter starts with border pad 2, axis pad 10, tick length 5, legend pad 0 and axis character size 5 x 13, on the given area |
| GxTypes.Trunc | gtk_painter.c:338-339 | the C cast to int truncates toward zero: the result is within one of the value, on the zero side |
| Numeric.DecadeOf | src/gxgraph.c:1439 | the exponent `(int) floor(nlog10(v))` is the decade of v: 10^e <= v < 10^(e+1), and 0 for 0 |
| Numeric.DecadeUnique | src/gxgraph.c:939-955 | a positive value has exactly one decade exponent, so `floor(log10(v))` is well defined |
| Clipping.Outcode | src/gxgraph.c:1138-1143 | the C_CODE outcode never flags both the left and right edges, nor both the bottom and top edges |
| Clipping.OutcodeZeroIffInside | src/gxgraph.c:1138-1143 | for an ordered box, the outcode is zero exactly when the point lies inside the closed box |
| Clipping.Straddles | src/gxgraph.c:1205-1233 | while the loop runs, the segment crosses the edge it picks: the coordinate on that edge lies between the end points, which differ |
| Clipping.EdgeCross | src/gxgraph.c:1205-1233 | the edge intersection formula is the point at fraction u in [0, 1] of the segment, and that point lies on the edge |
| Clipping.CrossingFacts | src/gxgraph.c:1205-1233 | the computed crossing lies on the picked edge and between the current end points |
| Clipping.StepShrinks | src/gxgraph.c:1201-1246 | one pass of the clip loop strictly lowers the number of violated edges, so the loop terminates |
| Clipping.ClipLoopExit | src/gxgraph.c:1201-1204 | when the loop stops, either both outcodes are zero or they share an edge (trivial reject) |
| Clipping.StepOnOriginal | src/gxgraph.c:1234-1245 | replacing an outside end point by the crossing keeps both end points on the original segment, in order |
| Clipping.ClipLoopOnOriginal | src/gxgraph.c:1201-1246 | after the whole loop both end points lie on the original segment, in their original order |
| Clipping.ClipAcceptsInside | src/gxgraph.c:1197-1256 | a segment with both end points inside the box comes out unchanged |
| Clipping.ClipRejectsShared | src/gxgraph.c:1203-1248 | a segment whose end points lie outside the same edge is dropped |
| Clipping.ClipResult | src/gxgraph.c:1248-1257 | an accepted segment has both end points inside the box, on the original segment |
| Clipping.ClipLoopKeepsInsideStart | src/gxgraph.c:1234-1245 | an end point that starts inside the box is never moved |
| Clipping.ClipSegment | src/gxgraph.c:1192-1257 | the clipping loop returns the clipped segment of the specification, or nothing |
| Clipping.ClipStep | src/gxgraph.c:1205-1245 | one loop pass moves the picked outside end point to the crossing and recomputes both outcodes |
| Clipping.CrossEdge | src/gxgraph.c:1205-1233 | the edge chosen in LEFT, RIGHT, BOTTOM, TOP order and its crossing point are those of the specification |
| Draw.MarkIffOutcodeZero | src/gxgraph.c:1261-1269 | a point gets a mark exactly when its outcode is zero |
| Draw.MarksInPlotArea | src/gxgraph.c:1260-1269 | in a fitted view every mark falls within the plot area in screen coordinates |
| Draw.SegmentsInPlotArea | src/gxgraph.c:1248-1257 | in a fitted view every drawn segment lies within the plot area in screen coordinates |
| Draw.InsideSetUnclipped | src/gxgraph.c:1190-1257 | a data set wholly inside the world box is drawn as its full poly-line, unclipped |
| Draw.SegmentsBound | src/gxgraph.c:1184-1271 | n points give at most n-1 segments and at most n marks |
| Draw.Batches | src/gxgraph.c:1184-1271 | the per-point loop collects exactly the specified segments (only when lines are on) and marks |
| Draw.DatasetCallsBalanced | src/gxgraph.c:1273-1293 | the calls for one data set open and close their group in a matched pair |
| Draw.GroupedBalanced | src/gxgraph.c:1273-1293 | the style, segment and mark calls wrapped in the set's group are balanced for every choice of lines and marks |
| Draw.DatasetCallsSound | src/gxgraph.c:1177-1293 | every call for one data set is one a painter accepts |
| Draw.DataCallsBalanced | src/gxgraph.c:1157-1295 | the calls for all data sets are balanced and sound |
| Draw.DrawDataset | src/gxgraph.c:1159-1294 | drawing one set yields exactly the specified style, segment and mark calls inside its group |
| Draw.DrawData | src/gxgraph.c:1146-1296 | drawing all sets yields their calls in list order, balanced and sound |
| Draw.LegendCount | src/gxgraph.c:840-855 | the legend never shows more entries than there are sets |
| Draw.LegendSelection | src/gxgraph.c:840-901 | the legend shows the longest prefix of sets whose entries fit above the plot's top, and the first one left out does not fit |
| Draw.LegendStopsAtMiss | src/gxgraph.c:842-899 | once an entry does not fit, adding more sets adds no legend entries |
| Draw.LegendShape | src/gxgraph.c:826-902 | the legend calls are balanced and sound, and every entry shown lies above the plot's top edge |
| Draw.LegendTextPass | src/gxgraph.c:836-856 | the first legend loop writes the names of the shown sets and measures their longest name |
| Draw.LegendLinePass | src/gxgraph.c:859-901 | the second legend loop draws a sample line (and mark) for exactly the shown sets |
| Draw.DrawLegend | src/gxgraph.c:826-902 | the legend's two passes together yield the specified legend calls |
| Draw.TitleCall | src/gxgraph.c:813-820 | the title is one top-justified title-style text at the horizontal centre of the area |
| Draw.YLinesRoles | src/gxgraph.c:1033-1072 | on a linear axis every grid line is drawn in the zero or grid style, with two or three calls per line |
| Draw.GridCallsBalanced | src/gxgraph.c:914-1129 | the grid and axis calls are one balanced group of sound calls |
| Draw.DrawYLines | src/gxgraph.c:1033-1072 | the y grid loop yields the specified style, line and tick calls per grid value |
| Draw.DrawXLines | src/gxgraph.c:1074-1110 | the x grid loop yields the specified style, line and tick calls per grid value |
| Draw.DrawYLabels | src/gxgraph.c:1004-1015 | the y label loop writes one right-justified label per grid value |
| Draw.DrawXLabels | src/gxgraph.c:1017-1028 | the x label loop writes one top-justified label per grid value |
| Draw.FittedGridReady | src/gxgraph.c:1004-1074 | after a successful transform the desired grid steps Yincr and Xincr are not negative, so round_up applies to them |
| Draw.GridWalk | src/gxgraph.c:1004-1006 | one init_grid / step_grid loop visits exactly the axis's values: the linear grid of round_up's step, or the given log values |
| Draw.DrawGridAndAxis | src/gxgraph.c:905-1130 | the grid and axis code picks the engineering exponents; its four init_grid / step_grid loops visit the multiples of round_up(Xincr) and round_up(Yincr) below the far bound, and the calls are the specified ones, balanced and sound |
| Draw.DrawWindowBody | src/gxgraph.c:706-711 | title, legend, grid and data calls in that order, balanced and sound |
| Draw.DrawWindow | src/gxgraph.c:690-712 | a window with data yields its title, legend, grid and data calls, balanced and sound; without data nothing; off screen the window is unchanged |
| Grid.Pick | src/gxgraph.c:1454-1461 | the mantissa is rounded up to 1, 2, 5 or 10, the least of these that is at least the mantissa |
| Grid.NiceStepAtLeast | src/gxgraph.c:1429-1477 | round_up never rounds down |
| Grid.NiceStepPositive | src/gxgraph.c:1429-1477 | round_up gives a positive step, even for zero |
| Grid.NiceStepBelow | src/gxgraph.c:1429-1477 | round_up less than 2.5 times its argument |
| Grid.NiceStepForm | src/gxgraph.c:1429-1477 | round_up's result is 1, 2 or 5 times a power of ten |
| Grid.NiceStepLeast | src/gxgraph.c:1429-1477 | round_up's result is the least number of that form at or above its argument |
| Grid.RoundUp | src/gxgraph.c:1434-1477 | the imperative round_up equals the specified nice step |
| Grid.Normalise | src/gxgraph.c:1439-1453 | the scaling loop divides the value by 10 to the exponent |
| Grid.Restore | src/gxgraph.c:1462-1475 | the restoring loop multiplies the chosen digit by 10 to the exponent |
| Grid.LogJuke | src/gxgraph.c:1346-1402 | the log-grid multiplier table rises from 1 below 10, has at most 101 entries, and is the listed table for each coarse ratio band |
| Grid.FineJuke | src/gxgraph.c:1370-1402 | the fine-ratio table rises from 1 below 10 and fits the 101-entry array |
| Grid.TenthSteps | src/gxgraph.c:1372-1381 | the tenths loop leaves a rising walk at a whole number |
| Grid.HalfSteps | src/gxgraph.c:1382-1386 | the halves loop keeps the table a rising walk at a whole number |
| Grid.WholeSteps | src/gxgraph.c:1387-1390 | the wholes loop keeps the table a rising walk at a whole number |
| Grid.FinishJuke | src/gxgraph.c:1391-1401 | dropping the final 10 leaves a rising table from 1 below 10 |
| Grid.EngExponent | src/gxgraph.c:939-955 | the engineering exponent is the multiple of 3 at or just below the decade exponent |
| Grid.Larger | src/gxgraph.c:931-954 | the larger of two magnitudes is one of them and at least both |
| Grid.AxisExponent | src/gxgraph.c:925-956 | a log axis has exponent 0; a linear axis has the engineering exponent of its larger end, and 0 when both ends are 0 |
| Grid.GridRole | src/gxgraph.c:1056-1103 | a grid line is drawn in the zero style exactly on a linear axis when its value is within ZERO_THRESH of the span of zero, else in the grid style |
| Grid.GridCursor.constructor | src/gxgraph.c:1331-1332 | the grid state starts zeroed, with a fresh 101-entry multiplier array |
| Grid.GridCursor.StepGrid | src/gxgraph.c:1418-1427 | step_grid advances to the next multiplier, or wraps to the first and moves the base one step; a linear grid moves exactly one step |
| Grid.GridCursor.FillJuke | src/gxgraph.c:1334-1344 | ADD_GRID stores log10 of each multiplier after the leading 0 |
| Grid.GridCursor.InitGrid | src/gxgraph.c:1336-1416 | a linear grid starts at the first multiple of the nice step above low, at most one step above it; a log grid has a rising multiplier table and an integral step |
| Grid.LinearGridValues | src/gxgraph.c:1410-1427 | the grid loop visits LinearGrid: first, first+step, ... for exactly the values below the opposite end |
| Grid.GridStep | src/gxgraph.c:1412 | the linear grid step round_up(incr) is positive and not below incr |
| Grid.FirstValue | src/gxgraph.c:1413-1415 | the first linear grid value lies above low and at most one step above it |
| Grid.LinearGridIsGrid | src/gxgraph.c:1410-1427 | LinearGrid is the progression from first in steps of s, every term below opp and the next one not |
| Grid.GridUnique | src/gxgraph.c:1410-1427 | only one sequence is that progression, so running init_grid again with the same arguments visits the same values |
| Grid.LinearAxisIsGrid | src/gxgraph.c:1410-1427 | a linear axis visits the progression from the first value above low in steps of round_up(incr) |
| Grid.LinearWalk | src/gxgraph.c:1005-1006 | init_grid, then step_grid while below opp, visits exactly LinearAxis(low, incr, opp) |
| Datasets.StartSet | src/gxgraph.c:265-293 | a new set is empty, visible, with unset line and mark flags, the colour cycling through six, its file name, and path name "Dataset " followed by its index in decimal |
| Datasets.DecimalRoundTrip | src/gxgraph.c:288 | the decimal text of the set index reads back as that index |
| Datasets.ApplyRecord | src/gxgraph.c:384-546 | a record adds at most its one point and changes only what its kind sets; other kinds leave the set unchanged |
| Datasets.FgetsLines | src/gxgraph.c:339-347 | the feof loop processes one line more than the file has when the file ends in a newline |
| Datasets.FgetsRepeatsLastLine | src/gxgraph.c:339-347 | a one-point file read by the feof loop gives the point twice |
| Datasets.Reader.constructor | src/gxgraph.c:61-67 | the reader starts with no sets, the title "gxgraph" (set by gxgraph_init at line 262) and unit texts "X" and "Y" |
| Datasets.Reader.OpenFile | src/gxgraph.c:338 | opening a file asks for a new set and changes nothing else |
| Datasets.Reader.NewSetIfPending | src/gxgraph.c:348-363 | a pending new set is created and linked at the list's end (or left unlinked after a freed set) and becomes current |
| Datasets.Reader.ApplyLine | src/gxgraph.c:366-546 | one line adds its point to the current set and updates the title, units and mark default; a blank line after points asks for a new set |
| Datasets.Reader.ReadLine | src/gxgraph.c:346-371 | one loop pass creates a pending set, then applies the line to it |
| Datasets.Reader.CloseFileAsWritten | src/gxgraph.c:550-566 | freeing an empty last set leaves later sets unlinked and the set count lowered; when that set was the first, the list head is left pointing at the freed record (`headFreed`) |
| Datasets.Reader.CloseFile | src/gxgraph.c:550-566 | freeing an empty last set removes it from the list and lowers the count; otherwise nothing changes |
| Datasets.Reader.ReadFile | src/gxgraph.c:338-566 | corrected: reading one file appends sets, each non-empty and from that file, whose points are the file's points in order |
| Datasets.Reader.ReadFileAsWritten | src/gxgraph.c:338-568 | the loop as written only ever extends the set list |
| Datasets.Reader.ReadDataSets | src/gxgraph.c:302-573 | corrected: all sets together hold every readable file's points, in file and line order; with no file named, standard input's points, in sets named "(stdin)" |
| Datasets.TrailingBlankLineAsWritten | src/gxgraph.c:355-566 | a file ending in a blank line, then a second file, loses the second file's set while the count says two |
| Datasets.TrailingBlankLine | src/gxgraph.c:355-566 | with the corrected close, the same input gives two sets, one per file |
| Datasets.FirstFileBlankAsWritten | src/gxgraph.c:352-566 | a first file holding only a blank line, then "3 4", leaves the head on the freed first set and lists no set, while the count is 1 |
| Datasets.FirstFileBlank | src/gxgraph.c:352-566 | with the corrected close, the same input lists exactly the second file's set, holding its one point |
| Datasets.DataBounds | src/gxgraph.c:592-617 | the bounds loop returns the least and greatest coordinates of all points, starting from plus and minus HUGE |
| Datasets.ScanSet | src/gxgraph.c:603-616 | scanning one set's points extends the bounds to cover them |
| Datasets.BoundsStep | src/gxgraph.c:607-615 | updating the bounds with one point keeps them the bounds of the points seen |
| Datasets.Pad | src/gxgraph.c:635-641 | padding keeps the centre, widens the span by 10 % and contains the original range |
| Datasets.BoundsUnique | src/gxgraph.c:592-617 | the bounds of the points from a given start value are unique, so the world below is determined by the data |
| Datasets.PutDatasetsInWindow | src/gxgraph.c:575-652 | a given world is used as is; otherwise each axis is the 5 % padding of its valid range override or of the data bounds, found from plus and minus HUGE, which contain every point |
| Datasets.BareNameUnnamed | src/gxgraph.c:516-526 | a bare "$name" line is a set-name record that leaves the set with no name |
| Datasets.SetNameRecord | src/gxgraph.c:516-526 | a set-name line that does not start with a quote names the set with the line's rest from word 1, or with nothing |
| Parser.BareNameParse | src/parser.c:252-254 | "$name" followed by a newline is classified as a set-name directive |
| Parser.BareNameRest | src/parser.c:99-144 | string_strdup_rest finds no word 1 in "$name" followed by a newline |
| Windows.MaxNameLenIsMax | src/gxgraph.c:748-759 | the longest name length is at least every set's and is some set's, or 0 |
| Windows.LeftWidth | src/gxgraph.c:762-764 | the space kept right of the plot fits both the x unit text and the longest name plus padding, and equals one of them |
| Windows.RightMarginFits | src/gxgraph.c:762-766 | every set name and the x unit text fit between the plot's right edge and the area's edge |
| Windows.ScreenCorners | src/gxgraph.c:793-804 | the world box's corners map to the plot area's corners, with y flipped |
| Windows.ScreenInside | src/gxgraph.c:46-49 | SCREENX and SCREENY map points of the world box into the plot area |
| Windows.LongestName | src/gxgraph.c:748-759 | the name loop finds the longest set name's length |
| Windows.PlotArea | src/gxgraph.c:736-768 | the plot area's corners are those the paddings and text sizes give |
| Windows.Fit | src/gxgraph.c:782-804 | the scales are chosen so the world box fits the plot area in both directions, centred |
| Windows.Window.constructor | src/gxgraph.c:676-680 | a new window has the requested size, no data and no neighbours |
| Windows.Window.ComputeTransform | src/gxgraph.c:723-811 | the plot area is always computed; status -1 exactly for an empty area, leaving the world alone, else the world is rescaled to fit |
| Windows.Window.Rescale | src/gxgraph.c:782-810 | rescaling keeps the plot area and fits a proper world box into it |
| Windows.NewWindow | src/gxgraph.c:671-687 | new_window links the new window after the previous one |
| Windows.Session.constructor | src/gxgraph.c:61 | the window list starts empty |
| Windows.Session.OpenFirst | src/gxgraph.c:252 | the first window is the whole list |
| Windows.Session.ZoomFromLast | src/gxgraph.c:671-687 | zooming from the last window appends the new one to the list |
| Windows.Session.ZoomFromMiddle | src/gxgraph.c:680-683 | as written, zooming from a middle window cuts off every later window, which still points back into the list |
| Windows.Session.SpliceAfter | src/gxgraph.c:680-683 | splicing sets all four links around the new window and no others |
| Windows.Session.ZoomInsert | src/gxgraph.c:671-687 | corrected: the new window is inserted right after the previous one, keeping all others |
| Windows.Session.Unlink | src/gxgraph.c:1303-1315 | unlinking rewires exactly the neighbours' links and the list head |
| Windows.Session.Delete | src/gxgraph.c:1298-1325 | deleting removes exactly that window from the list; the program quits exactly when none is left |
| Parser.WordsAreRuns | src/parser.c:54-97 | every word is a non-empty run of non-blank characters |
| Parser.ScanWords | src/parser.c:57-89 | the scanning loop finds the start and length of the requested word |
| Parser.StrdupWord | src/parser.c:54-97 | string_strdup_word returns the word the scan ends in (WordAt), and that is the idx-th blank-separated word when the line has more than idx words |
| Parser.StrdupRest | src/parser.c:99-144 | string_strdup_rest returns the line from the idx-th word on, or nothing |
| Parser.WordAndRestAgree | src/parser.c:64-143 | the word and the rest exist together, and the rest starts with the word and ends the line |
| Parser.WordAtIsWord | src/parser.c:54-97 | for an index below the word count the word found is that word of the line |
| Parser.CountWordsAsWritten | src/parser.c:26-52 | as written the count is between 0 and the length, and 0 for a blank line |
| Parser.CountWords | src/parser.c:26-52 | corrected: the count is the number of words |
| Parser.CountWordsAsWrittenMiscounts | src/parser.c:41 | as written "$scale_marks" counts 6 words though it has one, so its second word is missing |
| Parser.LowerString | src/parser.c:17 | case folding keeps the length and lowers each character |
| Parser.Lookup | src/parser.c:188-255 | the table lookup returns the default when no key matches, else the value of a matching key |
| Parser.LookupTable | src/parser.c:188-255 | with distinct keys, the lookup returns the matching key's value |
| Parser.ParseMarkType | src/parser.c:306-316 | the mark type is always one of the five kinds |
| Parser.ParseMarkTypeNames | src/parser.c:306-316 | each mark name, in any case, maps to its kind; unknown names give a circle |
| Parser.FirstWordOfLine | src/parser.c:181 | the first word of a line that starts with a letter is its leading run |
| Parser.ParseStringHead | src/parser.c:170-181 | parse_string classifies a line by its first character and its leading run |
| Parser.DirectivesUnambiguous | src/parser.c:188-255 | no two $ directives match the same word |
| Parser.KeywordsUnambiguous | src/parser.c:270-274 | no two keywords match the same word |
| Parser.MarkNamesUnambiguous | src/parser.c:309-313 | no two mark names match the same word |
| Parser.ClassifyDirective | src/parser.c:185-261 | a $ word yields its directive's code, and -1 exactly when it is none of them |
| Parser.ClassifyKeyword | src/parser.c:262-283 | a word ending in a colon yields its keyword's code, or no-op when unknown |
| Parser.ParseStringLeadingChar | src/parser.c:177-295 | a digit line draws, a # line is a comment, a quote line names the set |
| Parser.ParseStringLetter | src/parser.c:262-291 | a letter line not ending in a colon is move, text or draw by its first letter |
| Parser.ClassifyLetter | src/parser.c:284-299 | m or M moves, t or T is text, any other letter draws |
| Parser.FirstComma | src/parser.c:323 | strchr finds the first comma, or none exactly when there is no comma |
| Parser.SplitPair | src/parser.c:318-341 | a pair without a comma fails and keeps the old values; else both halves around the first comma are converted |
| Gtk.PresetColor | gtk_painter.c:535-549 | on screen the axis is black, the grid gray80 and the zero line white |
| Gtk.PresetWidth | gtk_painter.c:535-549 | on screen only the zero line is 2 wide; the axis and grid are 1 |
| Gtk.SegmentPathShape | gtk_painter.c:593-597 | each segment becomes one move and one line, in order |
| Gtk.DrawOneMark | gtk_painter.c:601-635 | one mark's path and its stroke or fill need are those of its mark type |
| Gtk.MarksPathShape | gtk_painter.c:646-655 | the mark loop only builds paths, and builds none exactly when there are no marks or the type draws nothing |
| Gtk.MarkPaint | gtk_painter.c:637-660 | all marks are painted by one final stroke or fill, and nothing is emitted when no mark is drawn |
| Gtk.TextSize | gtk_painter.c:668-678 | on screen titles are 18 points and all other text 8 |
| Gtk.TextPlacement | gtk_painter.c:691-706 | each justification anchors the text's box to the given point with its right, bottom, centre or top edge, to within half a pixel |
| Gtk.SegmentsStrokeOnce | gtk_painter.c:574-599 | a segment batch is stroked once at the end; every line is drawn exactly as the one-segment batch of its end points |
| Gtk.StyleResetsMarks | gtk_painter.c:527-553 | a preset style is set_attributes with the preset colour and width, and resets the mark settings |
| Gtk.WorldScreenInverse | gtk_painter.c:425-429 | WORLDX and WORLDY invert SCREENX and SCREENY |
| Gtk.PlotAreaDrag | gtk_painter.c:425-429 | in a fitted view the plot area's screen corners map back to the world box's corners |
| Gtk.GtkPainter.constructor | gtk_painter.c:93-197 | a new screen painter has no area, no lasso, is not zooming and has the default mark settings |
| Gtk.GtkPainter.Configure | gtk_painter.c:272-313 | a configure event sets the area and replaces the lasso with a fresh one that holds no slots, has no stored strips and has an empty command log |
| Gtk.GtkPainter.SetAttributes | gtk_painter.c:555-572 | sets the line width, cap and colour and caches the line style and mark settings |
| Gtk.GtkPainter.SetAttributesStyle | gtk_painter.c:527-553 | applies the preset attributes of the role |
| Gtk.GtkPainter.DrawLine | gtk_painter.c:574-583 | a line is a move, a line and a stroke |
| Gtk.GtkPainter.DrawSegments | gtk_painter.c:585-599 | the loop emits each segment's path, then one stroke |
| Gtk.GtkPainter.DrawMarks | gtk_painter.c:637-660 | the loop emits each mark's path, then the needed stroke or fill |
| Gtk.GtkPainter.DrawText | gtk_painter.c:662-711 | text at its justified origin, in black, in the style's size |
| Gtk.GtkPainter.Apply | gtk_painter.c:161-168 | each vtable entry does what the screen back-end's step says |
| Gtk.GtkPainter.Play | gtk_painter.c:161-168 | a whole call sequence is rendered in order |
| Gtk.GtkPainter.ButtonPress | gtk_painter.c:402-423 | button 1 starts a zoom drag at the truncated pointer position and is caught; other buttons change nothing |
| Gtk.GtkPainter.Motion | gtk_painter.c:331-368 | during a drag the lasso is redrawn around the normalised start and pointer corners, and its log gains the restore of the old strips if any were stored, then a save and a paint of each new strip; otherwise it is untouched |
| Gtk.GtkPainter.ButtonRelease | gtk_painter.c:431-482 | a release ends a drag; with button 1 the lasso is erased, its log gains exactly the restores of the stored strips, and the zoom world is the sorted world image of the two corners |
| PostScript.PageBox | src/ps_painter.c:92-95 | the bounding box has the graph's size and is centred on an A4 page |
| PostScript.SinkFor | src/ps_painter.c:97-104 | a name starting with a bar opens a pipe to the rest of the name, anything else a file of that name |
| PostScript.PsyInvolution | src/ps_painter.c:195 | flipping y twice restores it |
| PostScript.Justify | src/ps_painter.c:308-331 | each justification picks its show procedure and its empirical baseline shift |
| PostScript.EscapeAsWrittenUnescapes | src/ps_painter.c:333-342 | as written the quoting adds one backslash per parenthesis and removing them gives the text back |
| PostScript.EscapeLength | src/ps_painter.c:333-342 | corrected quoting adds one backslash per parenthesis or backslash |
| PostScript.EscapeReadsBack | src/ps_painter.c:333-342 | corrected: a PostScript reader reads the quoted literal back as the text |
| PostScript.EscapeAsWrittenReadsBack | src/ps_painter.c:333-342 | as written the literal reads back correctly only for text without backslashes |
| PostScript.EscapeAgrees | src/ps_painter.c:333-342 | on text without a backslash the corrected quoting writes exactly what the source's loop writes |
| PostScript.TrailingBackslashAsWritten | src/ps_painter.c:336-341 | as written "C:\" gives an unterminated literal; corrected it reads back |
| PostScript.SegmentCmdsRoundTrip | src/ps_painter.c:242-253 | each segment is one line command, and the flipped-back lines are the segments |
| PostScript.PlaceCmdsShape | src/ps_painter.c:280-281 | each mark is placed once, at its flipped position |
| PostScript.MarkProcBound | src/ps_painter.c:271-278 | a mark procedure is defined exactly for the four circle and square types |
| PostScript.MarkCmdsShape | src/ps_painter.c:255-283 | the mark size, the optional procedure, then one placement per mark |
| PostScript.StyleIsPresetAttributes | src/ps_painter.c:345-371 | a preset style is set_attributes with black 1, gray80 0.5 or black 2 |
| PostScript.FontCache | src/ps_painter.c:293-306 | the font is set only when the text size changes, so a second text of the same style sets no font |
| PostScript.RenderAppend | src/ps_painter.c:191-193 | rendering two call sequences is rendering their concatenation |
| PostScript.GroupCallsSilent | src/ps_painter.c:373-383 | group calls emit nothing in PostScript and change nothing |
| PostScript.PsPainter.constructor | src/ps_painter.c:57-193 | a new PostScript painter opens its sink, writes the header with the bounding box and the 11-point font, and starts with the initial cache |
| PostScript.PsPainter.Delete | src/ps_painter.c:197-208 | closing writes showpage, then pcloses a pipe or fcloses a file |
| PostScript.PsPainter.SetAttributes | src/ps_painter.c:210-231 | writes line width and colour, caches the mark settings |
| PostScript.PsPainter.SetAttributesStyle | src/ps_painter.c:345-371 | applies the role's preset attributes |
| PostScript.PsPainter.DrawLine | src/ps_painter.c:233-240 | one line command with flipped y |
| PostScript.PsPainter.DrawSegments | src/ps_painter.c:242-253 | the loop writes one line command per segment |
| PostScript.PsPainter.DrawMarks | src/ps_painter.c:255-283 | the size, procedure and one placement per mark |
| PostScript.PsPainter.DrawText | src/ps_painter.c:285-343 | the font change if needed, then the quoted, justified text; the cached size follows the style |
| PostScript.PsPainter.GroupStart | src/ps_painter.c:373-377 | nothing is written |
| PostScript.PsPainter.GroupEnd | src/ps_painter.c:379-383 | nothing is written |
| PostScript.PsPainter.Apply | src/ps_painter.c:73-80 | each vtable entry does what the PostScript step says |
| PostScript.PsPainter.Play | src/ps_painter.c:73-80 | a whole call sequence is rendered in order |
| PostScript.QuoteText | src/ps_painter.c:335-341 | the quoting loop yields the corrected escape of the text |
| Svg.DevIdentity | src/svg_painter.c:56-62 | DEV is the identity at 72 dpi |
| Svg.StoredWidth | src/svg_painter.c:153-156 | a zero line width is stored as 1 |
| Svg.PathRoundTrip | src/svg_painter.c:199-219 | replaying the path gives back the segments and ends at the last end point |
| Svg.PathCounts | src/svg_painter.c:200-218 | one line per segment, and one move per break in the chain |
| Svg.ChainOneMove | src/svg_painter.c:202-214 | a connected poly-line has exactly one move |
| Svg.ChainBreaks | src/svg_painter.c:207-208 | a connected poly-line breaks only at its start |
| Svg.LineIsOneSegment | src/svg_painter.c:165-183 | a line is drawn as a one-segment batch |
| Svg.MarkElemsShape | src/svg_painter.c:222-266 | filled and stroked circles give one circle per mark with radius half the mark width; other types give nothing |
| Svg.YOffset | src/svg_painter.c:293-311 | each justification's empirical baseline shift |
| Svg.TextElem | src/svg_painter.c:268-322 | corrected: the text has its anchor, the style's font size and the shifted position |
| Svg.TitleFontAsWritten | src/svg_painter.c:314-321 | as written a title is placed for 18 points but written at 11 |
| Svg.TextElemAgrees | src/svg_painter.c:274-321 | for any style but the title, at the initial text size, the corrected element is the one the source writes |
| Svg.TextSizeFixed | src/svg_painter.c:274-317 | as written nothing ever changes the stored text size |
| Svg.RenderDepth | src/svg_painter.c:352-367 | the element nesting depth after rendering follows the group calls |
| Svg.BalancedMarkup | src/svg_painter.c:112-135 | balanced calls give a document of prolog, svg root and matched elements |
| Svg.SvgPainter.constructor | src/svg_painter.c:68-126 | a new SVG painter writes the prolog and the root element of the graph's size |
| Svg.SvgPainter.Delete | src/svg_painter.c:130-140 | closing writes the root's end tag |
| Svg.SvgPainter.SetAttributes | src/svg_painter.c:142-163 | caches colour, width and mark settings; writes nothing |
| Svg.SvgPainter.SetAttributesStyle | src/svg_painter.c:324-350 | applies the role's preset attributes |
| Svg.SvgPainter.DrawLine | src/svg_painter.c:165-183 | one group with a one-segment path |
| Svg.SvgPainter.DrawSegments | src/svg_painter.c:185-220 | the loop builds one styled path of the whole batch |
| Svg.SvgPainter.DrawMarks | src/svg_painter.c:222-266 | the loop writes one circle per mark for circle types |
| Svg.SvgPainter.DrawText | src/svg_painter.c:268-322 | one text element |
| Svg.SvgPainter.GroupStart | src/svg_painter.c:352-358 | opens a named group |
| Svg.SvgPainter.GroupEnd | src/svg_painter.c:360-367 | closes the group |
| Svg.SvgPainter.Apply | src/svg_painter.c:86-93 | each vtable entry does what the SVG step says |
| Svg.SvgPainter.Play | src/svg_painter.c:86-93 | a whole call sequence is rendered in order |
| Ants.Extent | moving_ants.c:66-77 | a zero side length becomes 1 |
| Ants.Strips | moving_ants.c:80-102 | the top, right, bottom and left strips of the lasso |
| Ants.StripsCoverBorder | moving_ants.c:80-102 | the strips cover exactly the lasso's outline except its lower-right corner pixel |
| Ants.RestoreUndoesStore | moving_ants.c:104-144 | a restore writes back the very strips a store saved, side by side |
| Ants.MovingAnts.constructor | moving_ants.c:12-40 | a new lasso holds no pixmaps and has zeroed coordinates |
| Ants.MovingAnts.FreeBackingStorage | moving_ants.c:42-56 | every slot is released |
| Ants.MovingAnts.StoreBackground | moving_ants.c:66-123 | the strips are laid out and each one is saved to a held slot |
| Ants.MovingAnts.RestoreBackground | moving_ants.c:125-144 | every strip is copied back, then all slots are released |
| Ants.MovingAnts.DrawLasso | moving_ants.c:146-165 | an old lasso is erased, the new background saved and the four strips painted |
| Hardcopy.PrintDestination | src/gxgraph_hardcopy.c:145-150 | the print command is lp with the printer name quoted, or plain lp |
| Hardcopy.PrintIsPipe | src/gxgraph_hardcopy.c:145-151 | printing always goes to a pipe running that lp command |
| Hardcopy.Destination | src/gxgraph_hardcopy.c:145-158 | file devices open the entry itself |
| Hardcopy.HardcopyState.constructor | src/gxgraph_hardcopy.c:29-31 | the device starts as the printer, with no remembered name |
| Hardcopy.HardcopyState.ShowDialog | src/gxgraph_hardcopy.c:33-118 | a dialog is up and the device choice is unchanged |
| Hardcopy.HardcopyState.AssignVariable | src/gxgraph_hardcopy.c:202-210 | the picked menu item sets the device |
| Hardcopy.HardcopyState.Respond | src/gxgraph_hardcopy.c:126-182 | OK remembers the entry and draws the window once into the device's painter, which is closed; any response takes the dialog down |
| Hardcopy.PrintSvg | src/gxgraph_hardcopy.c:156-173 | the SVG document is the header, the drawing and the end tag, written to the entry |
| Hardcopy.PrintPs | src/gxgraph_hardcopy.c:145-171 | the PostScript document is the header, the drawing and showpage, on the file or pipe, closed the matching way |

## Left out

- Text output: every `fprintf`, `printf` format and the number layout of
  `write_value` are left out. Output is a sequence of typed commands, and
  labels come from a `writeValue` parameter.
- File and process I/O: `fopen`, `popen`, `pclose` and `fclose` are shown
  only by which sink is opened and which closer runs. A file's lines and
  whether it is readable are inputs.
- `sscanf`, `atof` and `atoi` are inputs. The `Scanned` record holds what
  they would produce for each line, so no number syntax is modelled.
- `log10`, `pow` and `floor` of doubles are replaced by decade exponents.
  The decade of a grid step is computed by `DecadeOf`; the decades of
  the world bounds are parameters with `IsDecade`. The log grid's start search is
  given as `start`, and `log10` for the multiplier table is a function
  parameter. The `nlog10` 1e-15 fudge is not modelled.
- Floating point: `double` is `real`, so rounding error and overflow are
  not captured. `HUGE` is a parameter, because the file defines it as
  1e-100 and system headers may override it.
- The OP_TEXT record's text pointer overlays the point's x and y in a
  union. The model takes those x and y as inputs.
- `gdk_color_parse` of colour names is left out. The preset colours are
  their X11 values, and a data file's colour is given in `Scanned`.
- Pango text measurement is given as an `extents` function.
- Pixmaps, graphics contexts, the expose handler and widget creation are
  left out. The lasso's pixels are not modelled; only which strips are
  copied where.
- Key presses, focus handling, the about dialog and the main program's
  option parsing are outside this model. gxgraph_about.c is not part of
  this model.
- Datasets.StartSet: reads the override name only when the set index is
  within the override array. The code indexes that array with no bound
  check (src/gxgraph.c:284-285). The array is zero-terminated
  (src/gxgraph.c:227), so index == length reads NULL and falls back to the
  file name, as modelled. An index past the length reads beyond the array,
  which is undefined (for example `-0 name` with three data sets). The
  model takes the file name there too.
- Gtk.GtkPainter.Configure: does not model the provisional scales and
  origin row it writes into the window (gtk_painter.c:285-291), the
  pixmap allocation or the redraw. The next `compute_transform` replaces
  those scales.
- Datasets.PutDatasetsInWindow: does not model the provisional scale and
  column origin (src/gxgraph.c:644-650), which `compute_transform`
  replaces before use. The redraw call at line 651 is also left out.
- `read_data_sets` declares bounding-box locals it never uses
  (src/gxgraph.c:404-411). They are left out.
- Datasets.Reader.ReadFileAsWritten: requires a file of at least one
  line. On an empty file the loop still runs once, `fgets` fails, and the
  uninitialised buffer `S_` is parsed; the model has no value for that
  buffer.
- Datasets.Reader.CloseFileAsWritten: when the freed empty set is the
  first set, no predecessor is found (src/gxgraph.c:555-562), so
  first_dataset and previous_dataset keep pointing at the freed record,
  and the next file's set is linked onto it. The rest of the list is then
  reachable only through freed memory. The model records this as
  `headFreed` and lists no set from then on
  (Datasets.FirstFileBlankAsWritten); it does not model reading freed
  memory.
- Datasets.Reader.ReadDataSets: is built on the corrected reader. As
  written, the last line of a newline-terminated file is read twice
  (Datasets.FgetsRepeatsLastLine), a set freed at the end of a file
  strands the following files' sets (Datasets.TrailingBlankLineAsWritten,
  Datasets.FirstFileBlankAsWritten), and `$scale_marks` is miscounted
  (Datasets.ApplyRecord). A file that cannot be opened only prints a
  warning, which is left out.
- Datasets.Reader.ReadFileAsWritten: proves only that the set list grows.
  The stale pointer it leaves after freeing an empty set is shown by
  Datasets.TrailingBlankLineAsWritten instead.
- Gtk.GtkPainter.Motion and Gtk.GtkPainter.ButtonRelease: require a
  configured painter with a lasso. The code would dereference a null
  lasso if an event arrived before the first configure.
- Hardcopy.HardcopyState.Respond, Hardcopy.PrintSvg and Hardcopy.PrintPs:
  require a window of non-negative size.
- Draw.DrawWindow: requires every set to have a name (`Named`). A bare
  "$name" line gives the set a NULL name (Datasets.BareNameUnnamed;
  string_strdup_rest at src/parser.c:99-144 finds no word 1), and
  draw_legend then calls strlen on it (src/gxgraph.c:845), which crashes
  when the set's legend entry fits. The name-length loop at
  src/gxgraph.c:752-753 skips such sets. The model leaves the crash out.
- Draw.DrawWindowBody: requires `Named` for the same reason.
- Hardcopy.HardcopyState.Respond: requires `Named` for the same reason.
- Hardcopy.PrintSvg: requires `Named` for the same reason.
- Hardcopy.PrintPs: requires `Named` for the same reason.
- Draw.DrawWindow: requires non-zero scales (`Usable`) and, on screen, a
  world box of positive width and height. A data file whose points all
  share an x or a y gives a zero span, which the 5 % padding keeps at
  zero (src/gxgraph.c:635-641). compute_transform then sets a zero
  scale, and SCREENX and SCREENY divide by it (src/gxgraph.c:46-49). The
  program draws with the resulting infinities; real arithmetic has no
  value for them, so the model leaves such windows out.
- Draw.DrawWindowBody, Draw.DrawGridAndAxis: require non-zero scales
  for the same reason. They also require a non-negative desired grid
  step on a linear axis (`GridReady`), because round_up takes the
  logarithm of it. A computed transform always gives one.
- Hardcopy.HardcopyState.Respond: inherits the non-zero scales and
  `GridReady` of Draw.DrawWindow, so it leaves out a window whose data
  has a constant coordinate.
- Hardcopy.PrintSvg: inherits the same requirements from Draw.DrawWindow.
- Hardcopy.PrintPs: inherits the same requirements from Draw.DrawWindow.
- Draw.DrawGridAndAxis: on a logarithmic axis the grid values are inputs
  (`logXs`, `logYs`). The walk of init_grid and step_grid through the
  juke table is not connected to them. Linear axes are computed by the
  cursor.
- Datasets.ApplyRecord: a `$scale_marks` line is tested with the
  corrected word count (Parser.CountWords). As written,
  `string_count_words` counts 6 for "$scale_marks\n"
  (Parser.CountWordsAsWrittenMiscounts), and `atoi` is then called on a
  missing word, which is undefined. A line that gives a value is read the
  same either way.
- Datasets.Reader.ApplyLine: inherits the corrected `$scale_marks` count
  from Datasets.ApplyRecord.
- `fgets` reads at most 255 characters at a time
  (src/gxgraph.c:341-346), so a longer line is read as several records.
  The model takes each line whole.
- PostScript.PsPainter.DrawText: writes the corrected quoting, which
  also escapes the backslash. The loop at src/ps_painter.c:336-341
  escapes only the parentheses (PostScript.EscapeAsWritten, Findings).
  The two agree on text without a backslash (PostScript.EscapeAgrees).
- PostScript.QuoteText: runs the corrected quoting, as above.
- PostScript.Step: its text commands carry the corrected quoting, as
  above. So do PostScript.Render, PostScript.PsPainter.Play and the
  document of Hardcopy.PrintPs.
- PostScript.PsPainter.SetAttributesStyle: the line style it passes is an
  uninitialised local in the code. The model leaves it unconstrained.
- Svg.SvgPainter.DrawMarks: the stroked circle's markup puts
  `stroke_width` outside the element. The model records the element's
  fields, not its text. SVG text is not XML-escaped, and the model does
  not escape it either.
- Svg.SvgPainter.DrawText: writes a title at font-size 18, the size it
  lays the title out for. src/svg_painter.c:317 writes
  `current_text_size`, which stays 11 (Svg.TitleFontAsWritten,
  Findings). Axis text is the same either way (Svg.TextElemAgrees).
- Svg.Step: writes the corrected font size, as above. So do Svg.Render,
  Svg.SvgPainter.Play and the document of Hardcopy.PrintSvg.
- Svg.SvgPainter.DrawText: requires a justification code within the
  nine-entry anchor table, because a larger code would index past the
  table.
- Concurrency: GTK's main loop and signal dispatch are left out. Each
  handler is one method call.

## Findings

| source | as written | input that shows it | evidently intended | confidence | as-written member | corrected member |
|---|---|---|---|---|---|---|
| src/gxgraph.c:680-683 | `new_window` sets `previous->next_window` to the new window without linking the old successor after it | zoom twice from the same window, so the first zoom's window is orphaned | insert the new window after the previous one and keep the rest of the list | not executed | Windows.Session.ZoomFromMiddle | Windows.Session.ZoomInsert |
| src/parser.c:41 | the end-of-word test reads `*p != '\t'` where `*p == '\t'` was meant, so every character after a word's first one ends the word | "$scale_marks\n" counts 6 words, and `atoi` then reads a missing second word | count blank-separated words | not executed | Parser.CountWordsAsWrittenMiscounts | Parser.CountWords |
| src/gxgraph.c:339-347 | the loop tests `feof` before `fgets`, so the last line is processed twice | a file "1 2\n" gives the point (1, 2) twice | process each line once | not executed | Datasets.FgetsRepeatsLastLine | Datasets.Reader.ReadFile |
| src/gxgraph.c:551-566 | freeing an empty last set leaves `previous_dataset` pointing at the freed set, so the next file's set is linked to it | a file "1 2\n\n" followed by a file "3 4\n" loses the second set while the count is 2 | unlink the freed set so the next set follows the last kept one | not executed | Datasets.TrailingBlankLineAsWritten | Datasets.TrailingBlankLine |
| src/gxgraph.c:551-566 | when the freed empty set is the first, the predecessor search finds nothing and `first_dataset` keeps pointing at the freed record, which the next file's set is linked onto | a file "\n" followed by a file "3 4\n" leaves the list head on freed memory | reset the head so the next set becomes the first | not executed | Datasets.FirstFileBlankAsWritten | Datasets.FirstFileBlank |
| src/ps_painter.c:336-341 | only parentheses are escaped in PostScript strings, not the backslash | the text "C:\" escapes the closing parenthesis and leaves the string open | escape backslash too, as section 3.2.4 of the PostScript Language Reference, 3rd ed., requires | not executed | PostScript.TrailingBackslashAsWritten | PostScript.EscapeReadsBack |
| src/svg_painter.c:314-321 | the font size printed is the stored `current_text_size`, which is always 11, not the chosen `text_size` | a title is written at 11 points though placed for 18 | write the style's size | not executed | Svg.TitleFontAsWritten | Svg.TextElem |
