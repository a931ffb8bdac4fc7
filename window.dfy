/**
 * A plot window: the margins and world-to-pixel transform of
 * compute_transform, the SCREENX / SCREENY macros that use it, and the
 * doubly linked list of open windows kept by new_window and window_delete.
 */
module Windows {
  import opened GxTypes

  /** The length a set name contributes to the legend width: 0 for a dataset without one. */
  function NameLen(d: Dataset): nat {
    if d.setName.Some? then |d.setName.value| else 0
  }

  /** The longest set name among the datasets, 0 when none has a name. */
  function MaxNameLen(ds: seq<Dataset>): nat
    decreases |ds|
  {
    if ds == [] then 0
    else if NameLen(ds[|ds| - 1]) > MaxNameLen(ds[..|ds| - 1]) then NameLen(ds[|ds| - 1])
    else MaxNameLen(ds[..|ds| - 1])
  }

  /** MaxNameLen bounds every name and is the length of one of them (or 0). */
  lemma {:induction false} MaxNameLenIsMax(ds: seq<Dataset>)
    ensures forall i :: 0 <= i < |ds| ==> NameLen(ds[i]) <= MaxNameLen(ds)
    ensures MaxNameLen(ds) == 0 ||
      exists i :: 0 <= i < |ds| && ds[i].setName.Some? && |ds[i].setName.value| == MaxNameLen(ds)
    decreases |ds|
  {
    if ds != [] {
      var init := ds[..|ds| - 1];
      MaxNameLenIsMax(init);
      assert forall i :: 0 <= i < |init| ==> init[i] == ds[i];
    }
  }

  // The margins of compute_transform, all in whole pixels.

  /** Left margin: border, seven axis characters of y labels, border. */
  function OrgX(m: Metrics): int {
    m.bdrPad + 7 * m.axisWidth + m.bdrPad
  }

  /** Top margin: title line and the y unit label (one and a half axis lines), between borders. */
  function OrgY(m: Metrics): int {
    m.bdrPad + m.titleHeight + m.bdrPad + m.axisHeight + m.axisHeight / 2 + m.bdrPad
  }

  /** Room on the right: the wider of the x unit label and the longest set name plus a border. */
  function LeftWidth(m: Metrics, maxName: nat, xUnitLen: nat): (w: int)
    ensures w >= xUnitLen * m.axisWidth && w >= maxName * m.axisWidth + m.bdrPad
    ensures w == xUnitLen * m.axisWidth || w == maxName * m.axisWidth + m.bdrPad
  {
    if maxName * m.axisWidth + m.bdrPad > xUnitLen * m.axisWidth then maxName * m.axisWidth + m.bdrPad
    else xUnitLen * m.axisWidth
  }

  function OppX(m: Metrics, maxName: nat, xUnitLen: nat): int {
    m.areaW - m.bdrPad - LeftWidth(m, maxName, xUnitLen)
  }

  /** Bottom margin: one line of x labels between borders. */
  function OppY(m: Metrics): int {
    m.areaH - m.bdrPad - m.axisHeight - m.bdrPad
  }

  /** The right margin leaves room for every legend name and for the x unit label. */
  lemma RightMarginFits(m: Metrics, ds: seq<Dataset>, xUnitLen: nat)
    ensures forall i :: 0 <= i < |ds| ==>
      OppX(m, MaxNameLen(ds), xUnitLen) + m.bdrPad + NameLen(ds[i]) * m.axisWidth + m.bdrPad <= m.areaW
    ensures OppX(m, MaxNameLen(ds), xUnitLen) + xUnitLen * m.axisWidth + m.bdrPad <= m.areaW
  {
    var n := MaxNameLen(ds);
    MaxNameLenIsMax(ds);
    forall i | 0 <= i < |ds|
      ensures OppX(m, n, xUnitLen) + m.bdrPad + NameLen(ds[i]) * m.axisWidth + m.bdrPad <= m.areaW
    {
      MulLe(NameLen(ds[i]), n, m.axisWidth);
    }
  }

  lemma MulLe(a: nat, b: nat, c: nat)
    requires a <= b
    ensures a * c <= b * c
  {
  }

  /** What SCREENX and SCREENY read of a window. */
  datatype View = View(
    orgX: real, orgY: real, oppX: real, oppY: real,
    worldOrgX: real, worldOrgY: real, worldOppX: real, worldOppY: real,
    scaleX: real, scaleY: real)

  /** SCREENX: world x to pixel column. */
  function ScreenX(v: View, x: real): real
    requires v.scaleX != 0.0
  {
    (x - v.worldOrgX) / v.scaleX + v.orgX
  }

  /** SCREENY: world y to pixel row, rows growing downwards. */
  function ScreenY(v: View, y: real): real
    requires v.scaleY != 0.0
  {
    v.oppY - (y - v.worldOrgY) / v.scaleY
  }

  /** A view as compute_transform leaves it when it succeeds on a non-degenerate world. */
  predicate Fitted(v: View) {
    v.orgX < v.oppX && v.orgY < v.oppY &&
    v.worldOrgX < v.worldOppX && v.worldOrgY < v.worldOppY &&
    v.scaleX == (v.worldOppX - v.worldOrgX) / (v.oppX - v.orgX) &&
    v.scaleY == (v.worldOppY - v.worldOrgY) / (v.oppY - v.orgY) &&
    v.scaleX > 0.0 && v.scaleY > 0.0
  }

  /** The visible world rectangle lands exactly on the plot area: x grows rightwards, y upwards. */
  lemma ScreenCorners(v: View)
    requires Fitted(v)
    ensures ScreenX(v, v.worldOrgX) == v.orgX && ScreenX(v, v.worldOppX) == v.oppX
    ensures ScreenY(v, v.worldOrgY) == v.oppY && ScreenY(v, v.worldOppY) == v.orgY
  {
    SpanBack(v.worldOppX - v.worldOrgX, v.oppX - v.orgX, v.scaleX);
    SpanBack(v.worldOppY - v.worldOrgY, v.oppY - v.orgY, v.scaleY);
  }

  lemma SpanBack(d: real, w: real, s: real)
    requires w > 0.0 && d > 0.0 && s == d / w
    ensures d / s == w
  {
  }

  /** A point of the visible world rectangle lands inside the plot area. */
  lemma ScreenInside(v: View, x: real, y: real)
    requires Fitted(v)
    requires v.worldOrgX <= x <= v.worldOppX && v.worldOrgY <= y <= v.worldOppY
    ensures v.orgX <= ScreenX(v, x) <= v.oppX && v.orgY <= ScreenY(v, y) <= v.oppY
  {
    ScreenCorners(v);
    DivMono(x - v.worldOrgX, v.worldOppX - v.worldOrgX, v.scaleX);
    DivMono(y - v.worldOrgY, v.worldOppY - v.worldOrgY, v.scaleY);
  }

  lemma DivMono(a: real, b: real, s: real)
    requires 0.0 <= a <= b && s > 0.0
    ensures 0.0 <= a / s <= b / s
  {
  }

  lemma DivPos(d: real, w: real)
    requires d > 0.0 && w > 0.0
    ensures d / w > 0.0
  {
  }

  /** Half the pixel span times the scale is half the world span. */
  lemma HalfSpan(d: real, w: real, s: real, h: real)
    requires w > 0.0 && s == d / w && h == w / 2.0 * s
    ensures h == d / 2.0
  {
  }

  /** The set-name loop of compute_transform. */
  method LongestName(ds: seq<Dataset>) returns (maxName: nat)
    ensures maxName == MaxNameLen(ds)
  {
    maxName := 0;
    var i := 0;
    while i < |ds|
      invariant 0 <= i <= |ds| && maxName == MaxNameLen(ds[..i])
    {
      assert ds[..i + 1][..i] == ds[..i];
      if ds[i].setName.Some? {
        var tempSize := |ds[i].setName.value|;
        if tempSize > maxName {
          maxName := tempSize;
        }
      }
      i := i + 1;
    }
    assert ds[..i] == ds;
  }

  /**
   * The success half of compute_transform: world units per pixel, and the
   * visible rectangle of the plot area's size about the data box's centre.
   */
  /** The plot area of compute_transform: the window less its margins. */
  method PlotArea(m: Metrics, maxName: nat, xUnitLen: nat) returns (orgX: real, orgY: real, oppX: real, oppY: real)
    ensures orgX == OrgX(m) as real && orgY == OrgY(m) as real
    ensures oppX == OppX(m, maxName, xUnitLen) as real && oppY == OppY(m) as real
  {
    orgX := (m.bdrPad + 7 * m.axisWidth + m.bdrPad) as real;
    orgY := (m.bdrPad + m.titleHeight + m.bdrPad + m.axisHeight + m.axisHeight / 2 + m.bdrPad) as real;
    var leftWidth := xUnitLen * m.axisWidth;
    if maxName * m.axisWidth + m.bdrPad > leftWidth {
      leftWidth := maxName * m.axisWidth + m.bdrPad;
    }
    oppX := (m.areaW - m.bdrPad - leftWidth) as real;
    oppY := (m.areaH - m.bdrPad - m.axisHeight - m.bdrPad) as real;
  }

  /**
   * The transform compute_transform sets up for plot area v: the scales
   * map the plot area onto the data box w, and the visible world
   * rectangle is that box.
   */
  predicate Rescaled(w: World, v: View, fitted: World) {
    && v.orgX < v.oppX && v.orgY < v.oppY
    && fitted == w.(scaleX := (w.x1 - w.x0) / (v.oppX - v.orgX), scaleY := (w.y1 - w.y0) / (v.oppY - v.orgY))
    && v.scaleX == fitted.scaleX && v.scaleY == fitted.scaleY
    && v.worldOrgX == w.x0 && v.worldOppX == w.x1 && v.worldOrgY == w.y0 && v.worldOppY == w.y1
  }

  method Fit(w: World, orgX: real, orgY: real, oppX: real, oppY: real)
      returns (fitted: World, worldOrgX: real, worldOrgY: real, worldOppX: real, worldOppY: real)
    requires orgX < oppX && orgY < oppY
    ensures var v := View(orgX, orgY, oppX, oppY, worldOrgX, worldOrgY, worldOppX, worldOppY, fitted.scaleX, fitted.scaleY);
      Rescaled(w, v, fitted) && (w.x0 < w.x1 && w.y0 < w.y1 ==> Fitted(v))
  {
    fitted := w.(scaleX := (w.x1 - w.x0) / (oppX - orgX), scaleY := (w.y1 - w.y0) / (oppY - orgY));
    var bbCenX := (w.x0 + w.x1) / 2.0;
    var bbCenY := (w.y0 + w.y1) / 2.0;
    var bbHalfWidth := (oppX - orgX) / 2.0 * fitted.scaleX;
    var bbHalfHeight := (oppY - orgY) / 2.0 * fitted.scaleY;
    HalfSpan(w.x1 - w.x0, oppX - orgX, fitted.scaleX, bbHalfWidth);
    HalfSpan(w.y1 - w.y0, oppY - orgY, fitted.scaleY, bbHalfHeight);
    if w.x0 < w.x1 && w.y0 < w.y1 {
      DivPos(w.x1 - w.x0, oppX - orgX);
      DivPos(w.y1 - w.y0, oppY - orgY);
    }
    worldOrgX := bbCenX - bbHalfWidth;
    worldOrgY := bbCenY - bbHalfHeight;
    worldOppX := bbCenX + bbHalfWidth;
    worldOppY := bbCenY + bbHalfHeight;
  }

  /** window_t: the fields the geometry engine reads and writes. */
  class Window {
    var width: real
    var height: real
    var orgX: real
    var orgY: real
    var oppX: real
    var oppY: real
    var worldOrgX: real
    var worldOrgY: real
    var worldOppX: real
    var worldOppY: real
    var world: World
    var datasets: seq<Dataset>   // the first_dataset list
    var next: Window?
    var prev: Window?

    function CurrentView(): View
      reads this
    {
      View(orgX, orgY, oppX, oppY, worldOrgX, worldOrgY, worldOppX, worldOppY, world.scaleX, world.scaleY)
    }

    /** new_window's field initialisation: no datasets, the requested size. */
    constructor (requestedWidth: int, requestedHeight: int)
      ensures width == requestedWidth as real && height == requestedHeight as real && datasets == []
      ensures next == null && prev == null
    {
      width, height := requestedWidth as real, requestedHeight as real;
      datasets := [];
      next, prev := null, null;
    }

    /**
     * compute_transform: the plot area inside the margins, then, unless it is
     * empty, the scales and the visible world rectangle about the centre of
     * the data box. Returns -1 for an empty plot area, 0 otherwise.
     */
    method ComputeTransform(m: Metrics, xUnitLen: nat) returns (status: int)
      modifies this
      ensures orgX == OrgX(m) as real && orgY == OrgY(m) as real
      ensures oppX == OppX(m, MaxNameLen(datasets), xUnitLen) as real && oppY == OppY(m) as real
      ensures status == 0 || status == -1
      ensures status == -1 <==> orgX >= oppX || orgY >= oppY
      ensures width == old(width) && height == old(height) && datasets == old(datasets)
      ensures next == old(next) && prev == old(prev)
      ensures status == -1 ==> world == old(world)
      ensures status == -1 ==> worldOrgX == old(worldOrgX) && worldOrgY == old(worldOrgY)
      ensures status == -1 ==> worldOppX == old(worldOppX) && worldOppY == old(worldOppY)
      ensures status == 0 ==> Rescaled(old(world), CurrentView(), world)
      ensures status == 0 && world.x0 < world.x1 && world.y0 < world.y1 ==> Fitted(CurrentView())
    {
      var maxName := LongestName(datasets);
      orgX, orgY, oppX, oppY := PlotArea(m, maxName, xUnitLen);
      if orgX >= oppX || orgY >= oppY {
        status := -1;
      } else {
        Rescale();
        status := 0;
      }
    }

    /** The second half of compute_transform: fit the data box to the plot area already set. */
    method Rescale()
      requires orgX < oppX && orgY < oppY
      modifies this
      ensures orgX == old(orgX) && orgY == old(orgY) && oppX == old(oppX) && oppY == old(oppY)
      ensures width == old(width) && height == old(height) && datasets == old(datasets)
      ensures next == old(next) && prev == old(prev)
      ensures Rescaled(old(world), CurrentView(), world)
      ensures world.x0 < world.x1 && world.y0 < world.y1 ==> Fitted(CurrentView())
    {
      world, worldOrgX, worldOrgY, worldOppX, worldOppY := Fit(world, orgX, orgY, oppX, oppY);
    }
  }

  /**
   * new_window: a fresh window with no successor whose predecessor is
   * previous; previous's successor becomes the new window, whatever it was.
   */
  method NewWindow(previous: Window?, requestedWidth: int, requestedHeight: int) returns (w: Window)
    modifies previous
    ensures fresh(w) && w.next == null && w.prev == previous && w.datasets == []
    ensures w.width == requestedWidth as real && w.height == requestedHeight as real
    ensures previous != null ==> previous.next == w && previous.prev == old(previous.prev)
  {
    w := new Window(requestedWidth, requestedHeight);
    w.next := null;
    if previous != null {
      previous.next := w;
    }
    w.prev := previous;
  }

  /**
   * The windows reachable from first by next pointers are exactly order, in
   * that order, each one's prev pointer naming the one before it.
   */
  ghost predicate Linked(first: Window?, order: seq<Window>)
    reads set w | w in order
  {
    (first == null <==> order == []) &&
    (order != [] ==> first == order[0] && order[0].prev == null && order[|order| - 1].next == null) &&
    (forall i, j :: 0 <= i < j < |order| ==> order[i] != order[j]) &&
    (forall i :: 0 <= i < |order| - 1 ==> order[i].next == order[i + 1]) &&
    (forall i :: 0 < i < |order| ==> order[i].prev == order[i - 1])
  }

  /** The global first_window and, as a ghost, the windows its list holds. */
  class Session {
    var first: Window?
    ghost var order: seq<Window>

    ghost predicate Valid()
      reads this, set w | w in order
    {
      Linked(first, order)
    }

    constructor ()
      ensures Valid() && order == [] && first == null
    {
      first := null;
      order := [];
    }

    /** main: first_window = new_window (NULL). */
    method OpenFirst(requestedWidth: int, requestedHeight: int) returns (w: Window)
      requires Valid() && first == null
      modifies this
      ensures Valid() && fresh(w) && order == [w] && first == w
    {
      w := NewWindow(null, requestedWidth, requestedHeight);
      first := w;
      order := [w];
    }

    /**
     * A zoom from the last window of the list: new_window appends the new
     * window at the end.
     */
    method ZoomFromLast(previous: Window, requestedWidth: int, requestedHeight: int) returns (w: Window)
      requires Valid() && order != [] && previous == order[|order| - 1]
      modifies this, previous
      ensures Valid() && fresh(w) && order == old(order) + [w]
    {
      ghost var o := order;
      w := NewWindow(previous, requestedWidth, requestedHeight);
      order := o + [w];
      forall i | 0 <= i < |o| - 1 ensures o[i].next == old(o[i].next) {
        assert o[i] != o[|o| - 1];
      }
      forall i | 0 <= i < |o| ensures o[i].prev == old(o[i].prev) {
        if i < |o| - 1 {
          assert o[i] != o[|o| - 1];
        }
      }
      forall i | 0 <= i < |order| - 1 ensures order[i].next == order[i + 1] {
        if i < |o| - 1 {
          assert order[i] == o[i] && order[i + 1] == o[i + 1];
        }
      }
      forall i | 0 < i < |order| ensures order[i].prev == order[i - 1] {
        if i < |o| {
          assert order[i] == o[i] && order[i - 1] == o[i - 1];
        }
      }
    }

    /**
     * A zoom from a window that has a successor, as new_window is written:
     * the list now ends at the new window and the old successor, whose prev
     * still names previous, is no longer reachable from first_window.
     */
    method ZoomFromMiddle(previous: Window, ghost k: nat, requestedWidth: int, requestedHeight: int)
        returns (w: Window)
      requires Valid() && k + 1 < |order| && previous == order[k]
      modifies this, previous
      ensures Valid() && fresh(w) && order == old(order)[..k + 1] + [w]
      ensures old(order)[k + 1] !in order && old(order)[k + 1].prev == old(order)[k]
    {
      ghost var o := order;
      ghost var orphan := o[k + 1];
      w := NewWindow(previous, requestedWidth, requestedHeight);
      order := o[..k + 1] + [w];
      forall i | 0 <= i < k ensures o[i].next == order[i + 1] && o[i] != previous {
        assert o[i] != o[k];
      }
      forall i | 0 < i <= k ensures o[i].prev == order[i - 1] {
        if i < k {
          assert o[i] != o[k];
        }
      }
      assert o[0].prev == null by {
        if k > 0 {
          assert o[0] != o[k];
        }
      }
      assert orphan.prev == previous by {
        assert orphan != o[k];
      }
      assert orphan !in order by {
        assert forall i :: 0 <= i <= k ==> o[i] != orphan;
      }
    }

    /**
     * The pointer surgery of the corrected new_window: w goes between
     * order[k] and its successor, and no other link changes.
     */
    method SpliceAfter(previous: Window, ghost k: nat, w: Window)
      requires Valid() && k < |order| && previous == order[k] && w !in order
      modifies (set v | v in order), w
      ensures w.next == (if k + 1 < |order| then order[k + 1] else null) && w.prev == previous && previous.next == w
      ensures forall i :: 0 <= i < |order| && i != k ==> order[i].next == old(order[i].next)
      ensures forall i :: 0 <= i < |order| && i != k + 1 ==> order[i].prev == old(order[i].prev)
      ensures k + 1 < |order| ==> order[k + 1].prev == w
    {
      ghost var o := order;
      assert Linked(first, o);
      assert k + 1 < |o| ==> previous.next == o[k + 1];
      assert k + 1 == |o| ==> previous.next == null;
      w.next := previous.next;
      w.prev := previous;
      if previous.next != null {
        previous.next.prev := w;
      }
      previous.next := w;
      forall i | 0 <= i < |o| && i != k ensures o[i].next == old(o[i].next) {
        assert o[i] != o[k];
      }
      forall i | 0 <= i < |o| && i != k + 1 ensures o[i].prev == old(o[i].prev) {
        if k + 1 < |o| {
          assert o[i] != o[k + 1];
        }
      }
    }

    /**
     * new_window as intended: the new window goes between previous and its
     * old successor, which keeps every open window in the list.
     */
    method ZoomInsert(previous: Window, ghost k: nat, requestedWidth: int, requestedHeight: int)
        returns (w: Window)
      requires Valid() && k < |order| && previous == order[k]
      modifies this, set v | v in order
      ensures Valid() && fresh(w) && order == old(order)[..k + 1] + [w] + old(order)[k + 1..]
    {
      w := new Window(requestedWidth, requestedHeight);
      ghost var o := order;
      SpliceAfter(previous, k, w);
      order := o[..k + 1] + [w] + o[k + 1..];
      assert forall i :: 0 <= i < |order| ==> order[i] == (if i <= k then o[i] else if i == k + 1 then w else o[i - 1]);
      forall i | 0 <= i < |order| - 1 ensures order[i].next == order[i + 1] {
        if i < k {
          assert order[i] == o[i] && order[i + 1] == o[i + 1];
        } else if i == k {
          assert order[i] == previous && order[i + 1] == w;
        } else if i == k + 1 {
          assert order[i] == w && order[i + 1] == o[k + 1];
        } else {
          assert order[i] == o[i - 1] && order[i + 1] == o[i];
        }
      }
      forall i | 0 < i < |order| ensures order[i].prev == order[i - 1] {
        if i <= k {
          assert order[i] == o[i] && order[i - 1] == o[i - 1];
        } else if i == k + 1 {
          assert order[i] == w && order[i - 1] == previous;
        } else if i == k + 2 {
          assert order[i] == o[k + 1] && order[i - 1] == w;
        } else {
          assert order[i] == o[i - 1] && order[i - 1] == o[i - 2];
        }
      }
      assert order[0] == o[0] && order[|order| - 1] == (if k + 1 == |o| then w else o[|o| - 1]);
      forall i, j | 0 <= i < j < |order| ensures order[i] != order[j] {
        if j == k + 1 {
          assert order[i] == o[i];
        } else if i == k + 1 {
          assert order[j] == o[j - 1];
        } else {
          var i', j' := if i <= k then i else i - 1, if j <= k then j else j - 1;
          assert order[i] == o[i'] && order[j] == o[j'];
        }
      }
    }

    /**
     * The pointer surgery of window_delete: the predecessor (or
     * first_window) skips the window, the successor's prev skips it too, and
     * no other link changes.
     */
    method Unlink(window: Window, ghost k: nat)
      requires Valid() && k < |order| && window == order[k]
      modifies this, set v | v in order
      ensures order == old(order)
      ensures first == (if k == 0 then old(window.next) else old(first))
      ensures forall i :: 0 <= i < |order| && i != k - 1 ==> order[i].next == old(order[i].next)
      ensures forall i :: 0 <= i < |order| && i != k + 1 ==> order[i].prev == old(order[i].prev)
      ensures k > 0 ==> order[k - 1].next == old(window.next)
      ensures k + 1 < |order| ==> order[k + 1].prev == old(window.prev)
    {
      ghost var o := order;
      assert Linked(first, o);
      assert k > 0 ==> window.prev == o[k - 1];
      assert k == 0 <==> window.prev == null;
      assert k + 1 < |o| ==> window.next == o[k + 1];
      assert k + 1 == |o| <==> window.next == null;
      if window.prev == null {
        first := window.next;
      } else {
        assert window.prev == o[k - 1];
        window.prev.next := window.next;
      }
      if window.next != null {
        assert window.next == o[k + 1];
        window.next.prev := window.prev;
      }
      forall i | 0 <= i < |o| && i != k - 1 ensures o[i].next == old(o[i].next) {
        if k > 0 {
          assert o[i] != o[k - 1];
        }
      }
      forall i | 0 <= i < |o| && i != k + 1 ensures o[i].prev == old(o[i].prev) {
        if k + 1 < |o| {
          assert o[i] != o[k + 1];
        }
      }
    }

    /**
     * window_delete: unlink the window from its neighbours (or from
     * first_window); quit is gtk_main_quit being called, once no window is
     * left in the list.
     */
    method Delete(window: Window, ghost k: nat) returns (quit: bool)
      requires Valid() && k < |order| && window == order[k]
      modifies this, set v | v in order
      ensures Valid() && order == old(order)[..k] + old(order)[k + 1..]
      ensures quit <==> order == []
    {
      ghost var o := order;
      Unlink(window, k);
      order := o[..k] + o[k + 1..];
      assert forall i :: 0 <= i < |order| ==> order[i] == (if i < k then o[i] else o[i + 1]);
      forall i | 0 <= i < |order| - 1 ensures order[i].next == order[i + 1] {
        if i + 1 < k {
          assert order[i] == o[i] && order[i + 1] == o[i + 1];
        } else if i + 1 == k {
          assert order[i] == o[k - 1] && order[i + 1] == o[k + 1];
        } else {
          assert order[i] == o[i + 1] && order[i + 1] == o[i + 2];
        }
      }
      forall i | 0 < i < |order| ensures order[i].prev == order[i - 1] {
        if i < k {
          assert order[i] == o[i] && order[i - 1] == o[i - 1];
        } else if i == k {
          assert order[i] == o[k + 1] && order[i - 1] == o[k - 1];
        } else {
          assert order[i] == o[i + 1] && order[i - 1] == o[i];
        }
      }
      if order != [] {
        assert order[0] == (if k == 0 then o[1] else o[0]);
        assert order[|order| - 1] == (if k + 1 == |o| then o[k - 1] else o[|o| - 1]);
      }
      forall i, j | 0 <= i < j < |order| ensures order[i] != order[j] {
        var i', j' := if i < k then i else i + 1, if j < k then j else j + 1;
        assert order[i] == o[i'] && order[j] == o[j'];
      }
      quit := first == null;
    }
  }
}
