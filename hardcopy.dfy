/**
 * The hardcopy dialog's logic: the chosen device decides the destination
 * and the back-end, and an OK response draws the window once through a
 * fresh painter, which is then closed.
 */
module Hardcopy {
  import opened GxTypes
  import opened Windows
  import opened Grid
  import opened Numeric
  import Draw
  import PostScript
  import Svg

  /** output_device_t. */
  datatype Device = Print | PostScriptFile | SvgFile

  /** The lp command line for a printer name; no name means the default printer. */
  function PrintDestination(printer: string): (d: string)
    ensures printer == "" ==> d == "|lp"
    ensures printer != "" ==> d == "|lp -d'" + printer + "'"
  {
    if |printer| > 0 then "|lp -d'" + printer + "'" else "|lp"
  }

  /** What the chosen painter is opened on: the print command, or the entry itself. */
  function Destination(device: Device, entry: string): (d: string)
    ensures device != Print ==> d == entry
  {
    if device == Print then PrintDestination(entry) else entry
  }

  /** Printing always goes through the PostScript painter's pipe branch, to lp. */
  lemma PrintIsPipe(printer: string)
    ensures var k := PostScript.SinkFor(Destination(Print, printer));
      k.ToPipe? && k.command == (if printer == "" then "lp" else "lp -d'" + printer + "'")
  {
    var d := Destination(Print, printer);
    assert d[0] == '|';
    if printer == "" {
      assert d[1..] == "lp";
    } else {
      assert d[1..] == "lp -d'" + printer + "'";
    }
  }

  /** What one OK response produced: the back-end's destination and its whole output. */
  datatype Printout =
    | PsJob(sink: PostScript.Sink, psDoc: seq<PostScript.PsCmd>, closer: PostScript.Closer)
    | SvgJob(file: string, svgDoc: seq<Svg.SvgCmd>)

  /** The file-static state of gxgraph_hardcopy.c, and whether a dialog is up. */
  class HardcopyState {
    var outputDevice: Device
    var outputDeviceName: Option<string>
    var dialogShown: bool

    /** output_device starts as the printer, output_device_name as NULL. */
    constructor ()
      ensures outputDevice == Print && outputDeviceName == None && !dialogShown
    {
      outputDevice := Print;
      outputDeviceName := None;
      dialogShown := false;
    }

    /** gxgraph_hardcopy_dialog_new, reduced to its effect: a dialog is up. */
    method ShowDialog()
      modifies this
      ensures dialogShown && outputDevice == old(outputDevice) && outputDeviceName == old(outputDeviceName)
    {
      dialogShown := true;
    }

    /** cb_menu_item_assign_variable: the activated item's device becomes the output device. */
    method AssignVariable(val: Device)
      modifies this
      ensures outputDevice == val
      ensures outputDeviceName == old(outputDeviceName) && dialogShown == old(dialogShown)
    {
      outputDevice := val;
    }

    /**
     * cb_response: on OK, remember the entry, open the painter for the
     * device, draw the window through it (without recomputing the
     * transform) and close it; on any response, take the dialog down.
     */
    method Respond(win: Window, ok: bool, entry: string, s: Draw.Settings, g: Draw.GridInputs, cursor: GridCursor)
      returns (printed: Option<Printout>, calls: seq<Call>)
      requires Draw.Usable(win.CurrentView()) && Draw.Named(win.datasets)
      requires IsDecade(Larger(win.world.x0, win.world.x1), g.ex) && IsDecade(Larger(win.world.y0, win.world.y1), g.ey)
      requires win.width >= 0.0 && win.height >= 0.0
      requires Draw.GridReady(win.CurrentView(), PainterMetrics(Trunc(win.width), Trunc(win.height)), s.flags)
      requires cursor.Valid()
      modifies this, win, cursor, cursor.juke
      ensures unchanged(win)
      ensures !dialogShown && outputDevice == old(outputDevice)
      ensures !ok ==> printed == None && outputDeviceName == old(outputDeviceName)
      ensures ok ==> outputDeviceName == Some(entry) && printed.Some?
      ensures ok ==> Balanced(calls) && AllSound(calls)
      ensures ok && win.datasets == [] ==> calls == []
      ensures ok && win.datasets != [] ==>
        calls == Draw.WindowCalls(win.CurrentView(), PainterMetrics(Trunc(win.width), Trunc(win.height)),
                                  win.world, win.datasets, s, g)
      ensures ok && outputDevice != SvgFile ==>
        var sink := PostScript.SinkFor(Destination(outputDevice, entry));
        printed.value.PsJob? && printed.value.sink == sink &&
        printed.value.psDoc == PostScript.Header(win.width, win.height)
          + PostScript.Render(Trunc(win.height), PostScript.INITIAL_CACHE, calls).1 + [PostScript.ShowPage] &&
        printed.value.closer == (if sink.ToPipe? then PostScript.PClose else PostScript.FClose)
      ensures ok && outputDevice == SvgFile ==>
        printed.value.SvgJob? && printed.value.file == entry &&
        printed.value.svgDoc == Svg.Header(win.width, win.height)
          + Svg.Render(Svg.INITIAL_STATE, calls).1 + [Svg.SvgClose]
    {
      printed := None;
      calls := [];
      if ok {
        outputDeviceName := Some(entry);
        var job;
        if outputDevice == SvgFile {
          job, calls := PrintSvg(win, entry, s, g, cursor);
        } else {
          var filename := entry;
          if outputDevice == Print {
            if |entry| > 0 {
              filename := "|lp -d'" + entry + "'";
            } else {
              filename := "|lp";
            }
          }
          job, calls := PrintPs(win, filename, s, g, cursor);
        }
        printed := Some(job);
      }
      dialogShown := false;
    }
  }

  /** The SVG branch of cb_response: a painter on the file, one drawing, closed. */
  method PrintSvg(win: Window, entry: string, s: Draw.Settings, g: Draw.GridInputs, cursor: GridCursor)
    returns (job: Printout, calls: seq<Call>)
    requires Draw.Usable(win.CurrentView()) && Draw.Named(win.datasets)
    requires IsDecade(Larger(win.world.x0, win.world.x1), g.ex) && IsDecade(Larger(win.world.y0, win.world.y1), g.ey)
    requires win.width >= 0.0 && win.height >= 0.0
    requires Draw.GridReady(win.CurrentView(), PainterMetrics(Trunc(win.width), Trunc(win.height)), s.flags)
    requires cursor.Valid()
    modifies win, cursor, cursor.juke
    ensures unchanged(win)
    ensures Balanced(calls) && AllSound(calls)
    ensures win.datasets == [] ==> calls == []
    ensures win.datasets != [] ==>
      calls == Draw.WindowCalls(win.CurrentView(), PainterMetrics(Trunc(win.width), Trunc(win.height)),
                                win.world, win.datasets, s, g)
    ensures job.SvgJob? && job.file == entry
    ensures job.svgDoc == Svg.Header(win.width, win.height) + Svg.Render(Svg.INITIAL_STATE, calls).1 + [Svg.SvgClose]
  {
    var m := PainterMetrics(Trunc(win.width), Trunc(win.height));
    var painter := new Svg.SvgPainter(win.width, win.height, entry);
    calls := Draw.DrawWindow(win, m, false, s, g, cursor);
    painter.Play(calls);
    painter.Delete();
    job := SvgJob(painter.fileName, painter.out);
  }

  /** The PostScript branch of cb_response: a painter on the file or pipe, one drawing, closed. */
  method PrintPs(win: Window, filename: string, s: Draw.Settings, g: Draw.GridInputs, cursor: GridCursor)
    returns (job: Printout, calls: seq<Call>)
    requires Draw.Usable(win.CurrentView()) && Draw.Named(win.datasets)
    requires IsDecade(Larger(win.world.x0, win.world.x1), g.ex) && IsDecade(Larger(win.world.y0, win.world.y1), g.ey)
    requires win.width >= 0.0 && win.height >= 0.0
    requires Draw.GridReady(win.CurrentView(), PainterMetrics(Trunc(win.width), Trunc(win.height)), s.flags)
    requires cursor.Valid()
    modifies win, cursor, cursor.juke
    ensures unchanged(win)
    ensures Balanced(calls) && AllSound(calls)
    ensures win.datasets == [] ==> calls == []
    ensures win.datasets != [] ==>
      calls == Draw.WindowCalls(win.CurrentView(), PainterMetrics(Trunc(win.width), Trunc(win.height)),
                                win.world, win.datasets, s, g)
    ensures var sink := PostScript.SinkFor(filename);
      job.PsJob? && job.sink == sink &&
      job.psDoc == PostScript.Header(win.width, win.height)
        + PostScript.Render(Trunc(win.height), PostScript.INITIAL_CACHE, calls).1 + [PostScript.ShowPage] &&
      job.closer == (if sink.ToPipe? then PostScript.PClose else PostScript.FClose)
  {
    var m := PainterMetrics(Trunc(win.width), Trunc(win.height));
    var painter := new PostScript.PsPainter(win.width, win.height, filename);
    calls := Draw.DrawWindow(win, m, false, s, g, cursor);
    painter.Play(calls);
    painter.Delete();
    job := PsJob(painter.sink, painter.out, painter.closedWith.value);
  }
}
