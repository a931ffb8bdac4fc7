/**
 * The Cohen–Sutherland segment clipper of gxgraph_draw_data: outcodes
 * against the visible world rectangle, the clip loop that moves one endpoint
 * onto a violated edge at a time, and what the loop guarantees about the
 * segment it hands on for drawing.
 */
module Clipping {
  import opened GxTypes

  /** The visible world rectangle: world_org_x/y and world_opp_x/y of a window. */
  datatype WorldBox = WorldBox(orgX: real, orgY: real, oppX: real, oppY: real)

  predicate Ordered(b: WorldBox) {
    b.orgX <= b.oppX && b.orgY <= b.oppY
  }

  /** Inclusive containment, the test the mark pass uses. */
  predicate Inside(b: WorldBox, x: real, y: real) {
    b.orgX <= x <= b.oppX && b.orgY <= y <= b.oppY
  }

  /** An outcode: the LEFT_CODE, RIGHT_CODE, BOTTOM_CODE and TOP_CODE bits. */
  datatype Code = Code(left: bool, right: bool, bottom: bool, top: bool)

  predicate Any(c: Code) {
    c.left || c.right || c.bottom || c.top
  }

  /** code1 & code2 is nonzero. */
  predicate Meet(a: Code, b: Code) {
    (a.left && b.left) || (a.right && b.right) || (a.bottom && b.bottom) || (a.top && b.top)
  }

  function Union(a: Code, b: Code): Code {
    Code(a.left || b.left, a.right || b.right, a.bottom || b.bottom, a.top || b.top)
  }

  function Count(c: Code): nat {
    (if c.left then 1 else 0) + (if c.right then 1 else 0)
    + (if c.bottom then 1 else 0) + (if c.top then 1 else 0)
  }

  /** The C_CODE macro: RIGHT is only tested when LEFT fails, TOP only when BOTTOM fails. */
  function Outcode(b: WorldBox, x: real, y: real): (c: Code)
    ensures !(c.left && c.right) && !(c.bottom && c.top)
  {
    Code(x < b.orgX, !(x < b.orgX) && x > b.oppX, y < b.orgY, !(y < b.orgY) && y > b.oppY)
  }

  /** A zero outcode means exactly that the point lies in the closed rectangle. */
  lemma OutcodeZeroIffInside(b: WorldBox, x: real, y: real)
    requires Ordered(b)
    ensures !Any(Outcode(b, x, y)) <==> Inside(b, x, y)
  {
  }

  /**
   * The state of the clip loop: the two current endpoints, and for each of
   * them its position t along the original segment (kept for the proofs; the
   * source does not carry it).
   */
  datatype ClipState = ClipState(x1: real, y1: real, x2: real, y2: real, t1: real, t2: real)

  function Start(s: Seg): ClipState {
    ClipState(s.x1, s.y1, s.x2, s.y2, 0.0, 1.0)
  }

  function Code1(b: WorldBox, st: ClipState): Code { Outcode(b, st.x1, st.y1) }
  function Code2(b: WorldBox, st: ClipState): Code { Outcode(b, st.x2, st.y2) }

  /** The loop body runs: some endpoint is outside and no edge excludes both. */
  predicate Active(b: WorldBox, st: ClipState) {
    (Any(Code1(b, st)) || Any(Code2(b, st))) && !Meet(Code1(b, st), Code2(b, st))
  }

  /** The edge crossing formula of the source, a1 + (a2 - a1) * (edge - b1) / (b2 - b1). */
  function Cross(a1: real, a2: real, edge: real, b1: real, b2: real): real
    requires b1 != b2
  {
    a1 + (a2 - a1) * (edge - b1) / (b2 - b1)
  }

  /** How far along from endpoint 1 to endpoint 2 the crossing lies. */
  function Frac(edge: real, b1: real, b2: real): real
    requires b1 != b2
  {
    (edge - b1) / (b2 - b1)
  }

  /** The edge the loop picks for this state: the first violated bit of cd, in the source's order. */
  datatype Edge = LeftEdge | RightEdge | BottomEdge | TopEdge

  function PickEdge(cd: Code): Edge
    requires Any(cd)
  {
    if cd.left then LeftEdge
    else if cd.right then RightEdge
    else if cd.bottom then BottomEdge
    else TopEdge
  }

  /** cd = code1 ? code1 : code2 */
  function Cd(b: WorldBox, st: ClipState): Code {
    if Any(Code1(b, st)) then Code1(b, st) else Code2(b, st)
  }

  /** The endpoints straddle the picked edge, so the denominator is nonzero. */
  lemma Straddles(b: WorldBox, st: ClipState)
    requires Ordered(b) && Active(b, st)
    ensures var e := PickEdge(Cd(b, st));
      (e == LeftEdge ==> st.x1 != st.x2 && Between(st.x1, b.orgX, st.x2))
      && (e == RightEdge ==> st.x1 != st.x2 && Between(st.x1, b.oppX, st.x2))
      && (e == BottomEdge ==> st.y1 != st.y2 && Between(st.y1, b.orgY, st.y2))
      && (e == TopEdge ==> st.y1 != st.y2 && Between(st.y1, b.oppY, st.y2))
  {
  }

  /** The endpoints differ in the coordinate the edge e constrains. */
  predicate Usable(e: Edge, x1: real, y1: real, x2: real, y2: real) {
    ((e == LeftEdge || e == RightEdge) ==> x1 != x2) && ((e == BottomEdge || e == TopEdge) ==> y1 != y2)
  }

  /** The crossing point (tx, ty) with edge e and its position u from endpoint 1 to endpoint 2. */
  function CrossingAt(b: WorldBox, e: Edge, x1: real, y1: real, x2: real, y2: real): (real, real, real)
    requires Usable(e, x1, y1, x2, y2)
  {
    match e
    case LeftEdge => (b.orgX, Cross(y1, y2, b.orgX, x1, x2), Frac(b.orgX, x1, x2))
    case RightEdge => (b.oppX, Cross(y1, y2, b.oppX, x1, x2), Frac(b.oppX, x1, x2))
    case BottomEdge => (Cross(x1, x2, b.orgY, y1, y2), b.orgY, Frac(b.orgY, y1, y2))
    case TopEdge => (Cross(x1, x2, b.oppY, y1, y2), b.oppY, Frac(b.oppY, y1, y2))
  }

  /** The crossing of the edge the loop picks for this state. */
  function Crossing(b: WorldBox, st: ClipState): (real, real, real)
    requires Ordered(b) && Active(b, st)
  {
    Straddles(b, st);
    CrossingAt(b, PickEdge(Cd(b, st)), st.x1, st.y1, st.x2, st.y2)
  }

  /** The crossing point c replaces the endpoint cd came from. */
  function Replace(b: WorldBox, st: ClipState, c: (real, real, real)): ClipState {
    if Cd(b, st) == Code1(b, st) then ReplaceFirst(st, c) else ReplaceSecond(st, c)
  }

  function ReplaceFirst(st: ClipState, c: (real, real, real)): ClipState {
    st.(x1 := c.0, y1 := c.1, t1 := st.t1 + c.2 * (st.t2 - st.t1))
  }

  function ReplaceSecond(st: ClipState, c: (real, real, real)): ClipState {
    st.(x2 := c.0, y2 := c.1, t2 := st.t1 + c.2 * (st.t2 - st.t1))
  }

  /** One iteration of the clip loop. */
  function Step(b: WorldBox, st: ClipState): ClipState
    requires Ordered(b) && Active(b, st)
  {
    Replace(b, st, Crossing(b, st))
  }

  function Measure(b: WorldBox, st: ClipState): nat {
    Count(Union(Code1(b, st), Code2(b, st)))
  }

  /** The whole clip loop: iterate until both codes are zero or they share a bit. */
  function ClipLoop(b: WorldBox, st: ClipState): ClipState
    requires Ordered(b)
    decreases Measure(b, st)
  {
    if !Active(b, st) then st
    else
      StepShrinks(b, st);
      ClipLoop(b, Step(b, st))
  }

  /** The segment the source appends, in world coordinates, or None. */
  function ClipSeg(b: WorldBox, s: Seg): Option<Seg>
    requires Ordered(b)
  {
    var f := ClipLoop(b, Start(s));
    if !(Any(Code1(b, f)) && Any(Code2(b, f))) then Some(Seg(f.x1, f.y1, f.x2, f.y2))
    else None
  }

  // ---------------------------------------------------------------------
  // Arithmetic of one crossing

  predicate Between(lo: real, v: real, hi: real) {
    (lo <= v <= hi) || (hi <= v <= lo)
  }

  lemma MulUnit(d: real, u: real) returns (p: real)
    requires d >= 0.0 && 0.0 <= u <= 1.0
    ensures p == d * u && 0.0 <= p <= d
  {
    p := d * u;
    assert d - d * u == d * (1.0 - u);
  }

  lemma DivUnit(n: real, d: real) returns (q: real)
    requires d > 0.0 && 0.0 <= n <= d
    ensures q == n / d && 0.0 <= q <= 1.0
  {
    q := n / d;
    assert q * d == n;
    assert (q - 1.0) * d == n - d;
  }

  /** The crossing formula is the point at u = Frac between the endpoints, and u is in [0, 1]. */
  lemma EdgeCross(a1: real, a2: real, edge: real, b1: real, b2: real)
    requires b1 != b2 && Between(b1, edge, b2)
    ensures 0.0 <= Frac(edge, b1, b2) <= 1.0
    ensures Cross(a1, a2, edge, b1, b2) == a1 + (a2 - a1) * Frac(edge, b1, b2)
    ensures b1 + (b2 - b1) * Frac(edge, b1, b2) == edge
  {
    var u := Frac(edge, b1, b2);
    if b1 < b2 {
      var q := DivUnit(edge - b1, b2 - b1);
    } else {
      var q := DivUnit(b1 - edge, b1 - b2);
      assert q == u;
    }
    assert u * (b2 - b1) == edge - b1;
    assert (a2 - a1) * (edge - b1) == ((a2 - a1) * u) * (b2 - b1);
  }

  lemma LerpBetween(a1: real, a2: real, u: real, x: real)
    requires 0.0 <= u <= 1.0 && x == a1 + (a2 - a1) * u
    ensures Between(a1, x, a2)
  {
    if a1 <= a2 {
      var p := MulUnit(a2 - a1, u);
      assert a1 <= a1 + p <= a2;
    } else {
      var q := MulUnit(a1 - a2, u);
      assert (a2 - a1) * u == -q;
      assert a2 <= a1 - q <= a1;
    }
  }

  /** Interpolating between two points of a segment gives a point of the same segment. */
  lemma LerpCompose(p: real, q: real, t1: real, t2: real, u: real, t: real, a1: real, a2: real, x: real)
    requires a1 == p + t1 * (q - p) && a2 == p + t2 * (q - p)
    requires t == t1 + u * (t2 - t1) && x == a1 + (a2 - a1) * u
    ensures x == p + t * (q - p)
  {
    var d, w := q - p, t2 - t1;
    assert a2 - a1 == w * d;
    assert (w * d) * u == (u * w) * d;
    assert (t1 + u * w) * d == t1 * d + (u * w) * d;
  }

  lemma UnitCompose(t1: real, t2: real, u: real, t: real)
    requires 0.0 <= t1 <= t2 <= 1.0 && 0.0 <= u <= 1.0 && t == t1 + u * (t2 - t1)
    ensures t1 <= t <= t2
  {
    var p := MulUnit(t2 - t1, u);
    assert u * (t2 - t1) == p;
  }

  predicate CrossingOk(st: ClipState, c: (real, real, real)) {
    0.0 <= c.2 <= 1.0 && c.0 == st.x1 + (st.x2 - st.x1) * c.2 && c.1 == st.y1 + (st.y2 - st.y1) * c.2
  }

  /** The crossing lies on the picked edge. */
  predicate OnPickedEdge(b: WorldBox, st: ClipState, c: (real, real, real))
    requires Active(b, st)
  {
    var e := PickEdge(Cd(b, st));
    (e == LeftEdge ==> c.0 == b.orgX) && (e == RightEdge ==> c.0 == b.oppX)
    && (e == BottomEdge ==> c.1 == b.orgY) && (e == TopEdge ==> c.1 == b.oppY)
  }

  /** The crossing lies between the current endpoints, at position u in [0, 1]. */
  lemma CrossingFacts(b: WorldBox, st: ClipState)
    requires Ordered(b) && Active(b, st)
    ensures CrossingOk(st, Crossing(b, st)) && OnPickedEdge(b, st, Crossing(b, st))
  {
    var e := PickEdge(Cd(b, st));
    if e == LeftEdge {
      CrossingLeft(b, st);
    } else if e == RightEdge {
      CrossingRight(b, st);
    } else if e == BottomEdge {
      CrossingBottom(b, st);
    } else {
      CrossingTop(b, st);
    }
  }

  lemma CrossingLeft(b: WorldBox, st: ClipState)
    requires Ordered(b) && Active(b, st) && PickEdge(Cd(b, st)) == LeftEdge
    ensures CrossingOk(st, Crossing(b, st)) && OnPickedEdge(b, st, Crossing(b, st))
  {
    Straddles(b, st);
    XEdge(st, b.orgX);
  }

  lemma CrossingRight(b: WorldBox, st: ClipState)
    requires Ordered(b) && Active(b, st) && PickEdge(Cd(b, st)) == RightEdge
    ensures CrossingOk(st, Crossing(b, st)) && OnPickedEdge(b, st, Crossing(b, st))
  {
    Straddles(b, st);
    XEdge(st, b.oppX);
  }

  lemma CrossingBottom(b: WorldBox, st: ClipState)
    requires Ordered(b) && Active(b, st) && PickEdge(Cd(b, st)) == BottomEdge
    ensures CrossingOk(st, Crossing(b, st)) && OnPickedEdge(b, st, Crossing(b, st))
  {
    Straddles(b, st);
    YEdge(st, b.orgY);
  }

  lemma CrossingTop(b: WorldBox, st: ClipState)
    requires Ordered(b) && Active(b, st) && PickEdge(Cd(b, st)) == TopEdge
    ensures CrossingOk(st, Crossing(b, st)) && OnPickedEdge(b, st, Crossing(b, st))
  {
    Straddles(b, st);
    YEdge(st, b.oppY);
  }

  lemma XEdge(st: ClipState, edge: real)
    requires st.x1 != st.x2 && Between(st.x1, edge, st.x2)
    ensures var u := Frac(edge, st.x1, st.x2);
      0.0 <= u <= 1.0 && edge == st.x1 + (st.x2 - st.x1) * u
      && Cross(st.y1, st.y2, edge, st.x1, st.x2) == st.y1 + (st.y2 - st.y1) * u
  {
    EdgeCross(st.y1, st.y2, edge, st.x1, st.x2);
  }

  lemma YEdge(st: ClipState, edge: real)
    requires st.y1 != st.y2 && Between(st.y1, edge, st.y2)
    ensures var u := Frac(edge, st.y1, st.y2);
      0.0 <= u <= 1.0 && edge == st.y1 + (st.y2 - st.y1) * u
      && Cross(st.x1, st.x2, edge, st.y1, st.y2) == st.x1 + (st.x2 - st.x1) * u
  {
    EdgeCross(st.x1, st.x2, edge, st.y1, st.y2);
  }

  /** Each step clears the picked bit from both codes and sets no new bit, so the loop ends. */
  lemma StepShrinks(b: WorldBox, st: ClipState)
    requires Ordered(b) && Active(b, st)
    ensures Measure(b, Step(b, st)) < Measure(b, st)
  {
    CrossingFacts(b, st);
    var c := Crossing(b, st);
    LerpBetween(st.x1, st.x2, c.2, c.0);
    LerpBetween(st.y1, st.y2, c.2, c.1);
    ReplaceShrinks(b, st, c);
  }

  /** A replacement point between the endpoints and on the picked edge shrinks the union of the codes. */
  lemma ReplaceShrinks(b: WorldBox, st: ClipState, c: (real, real, real))
    requires Ordered(b) && Active(b, st) && OnPickedEdge(b, st, c)
    requires Between(st.x1, c.0, st.x2) && Between(st.y1, c.1, st.y2)
    ensures Measure(b, Replace(b, st, c)) < Measure(b, st)
  {
    var c1, c2 := Code1(b, st), Code2(b, st);
    var nc := Outcode(b, c.0, c.1);
    var u := Union(c1, c2);
    assert Sub(nc, u);
    var e := PickEdge(Cd(b, st));
    var n := Replace(b, st, c);
    var u' := Union(Code1(b, n), Code2(b, n));
    if Cd(b, st) == c1 {
      assert u' == Union(nc, c2);
    } else {
      assert u' == Union(c1, nc);
    }
    assert Sub(u', u);
    if e == LeftEdge {
      assert u.left && !u'.left;
    } else if e == RightEdge {
      assert u.right && !u'.right;
    } else if e == BottomEdge {
      assert u.bottom && !u'.bottom;
    } else {
      assert u.top && !u'.top;
    }
    SubCount(u', u);
  }

  /** Every bit of a is a bit of b. */
  predicate Sub(a: Code, b: Code) {
    (a.left ==> b.left) && (a.right ==> b.right) && (a.bottom ==> b.bottom) && (a.top ==> b.top)
  }

  lemma SubCount(a: Code, b: Code)
    requires Sub(a, b) && a != b
    ensures Count(a) < Count(b)
  {
  }

  // ---------------------------------------------------------------------
  // What the loop guarantees

  /** The loop stops with both endpoints inside, or with both outside one common edge. */
  lemma {:induction false} ClipLoopExit(b: WorldBox, st: ClipState)
    requires Ordered(b)
    ensures var f := ClipLoop(b, st);
      (!Any(Code1(b, f)) && !Any(Code2(b, f))) || Meet(Code1(b, f), Code2(b, f))
    decreases Measure(b, st)
  {
    if Active(b, st) {
      StepShrinks(b, st);
      ClipLoopExit(b, Step(b, st));
    }
  }

  /** The current endpoints are the points at t1 <= t2 of the original segment. */
  predicate OnOriginal(s: Seg, st: ClipState) {
    0.0 <= st.t1 <= st.t2 <= 1.0 && PointAt(s, st.x1, st.y1, st.t1) && PointAt(s, st.x2, st.y2, st.t2)
  }

  /** (x, y) is the point at parameter t of segment s. */
  predicate PointAt(s: Seg, x: real, y: real, t: real) {
    x == s.x1 + t * (s.x2 - s.x1) && y == s.y1 + t * (s.y2 - s.y1)
  }

  lemma StepOnOriginal(b: WorldBox, s: Seg, st: ClipState)
    requires Ordered(b) && Active(b, st) && OnOriginal(s, st)
    ensures OnOriginal(s, Step(b, st))
  {
    CrossingFacts(b, st);
    ReplaceOnOriginal(b, s, st, Crossing(b, st));
  }

  lemma ReplaceOnOriginal(b: WorldBox, s: Seg, st: ClipState, c: (real, real, real))
    requires OnOriginal(s, st) && CrossingOk(st, c)
    ensures OnOriginal(s, Replace(b, st, c))
  {
    var t := CrossingOnOriginal(s, st, c);
    if Cd(b, st) == Code1(b, st) {
      ReplaceFirstOnOriginal(s, st, c, t);
    } else {
      ReplaceSecondOnOriginal(s, st, c, t);
    }
  }

  lemma ReplaceFirstOnOriginal(s: Seg, st: ClipState, c: (real, real, real), t: real)
    requires t == st.t1 + c.2 * (st.t2 - st.t1) && 0.0 <= t <= st.t2 <= 1.0
    requires PointAt(s, c.0, c.1, t) && PointAt(s, st.x2, st.y2, st.t2)
    ensures OnOriginal(s, ReplaceFirst(st, c))
  {
    assert ReplaceFirst(st, c) == ClipState(c.0, c.1, st.x2, st.y2, t, st.t2);
  }

  lemma ReplaceSecondOnOriginal(s: Seg, st: ClipState, c: (real, real, real), t: real)
    requires t == st.t1 + c.2 * (st.t2 - st.t1) && 0.0 <= st.t1 <= t <= 1.0
    requires PointAt(s, st.x1, st.y1, st.t1) && PointAt(s, c.0, c.1, t)
    ensures OnOriginal(s, ReplaceSecond(st, c))
  {
    assert ReplaceSecond(st, c) == ClipState(st.x1, st.y1, c.0, c.1, st.t1, t);
  }

  /** The crossing is the point at t along the original segment, with t between t1 and t2. */
  lemma CrossingOnOriginal(s: Seg, st: ClipState, c: (real, real, real)) returns (t: real)
    requires OnOriginal(s, st) && CrossingOk(st, c)
    ensures t == st.t1 + c.2 * (st.t2 - st.t1)
    ensures 0.0 <= st.t1 <= t <= st.t2 <= 1.0 && PointAt(s, c.0, c.1, t)
  {
    t := st.t1 + c.2 * (st.t2 - st.t1);
    assert st.t1 <= t <= st.t2 by {
      UnitCompose(st.t1, st.t2, c.2, t);
    }
    assert c.0 == s.x1 + t * (s.x2 - s.x1) by {
      LerpCompose(s.x1, s.x2, st.t1, st.t2, c.2, t, st.x1, st.x2, c.0);
    }
    assert c.1 == s.y1 + t * (s.y2 - s.y1) by {
      LerpCompose(s.y1, s.y2, st.t1, st.t2, c.2, t, st.y1, st.y2, c.1);
    }
  }

  lemma {:induction false} ClipLoopOnOriginal(b: WorldBox, s: Seg, st: ClipState)
    requires Ordered(b) && OnOriginal(s, st)
    ensures OnOriginal(s, ClipLoop(b, st))
    decreases Measure(b, st)
  {
    if Active(b, st) {
      StepShrinks(b, st);
      StepOnOriginal(b, s, st);
      ClipLoopOnOriginal(b, s, Step(b, st));
    }
  }

  /** A segment with both endpoints inside is drawn unchanged. */
  lemma ClipAcceptsInside(b: WorldBox, s: Seg)
    requires Ordered(b) && Inside(b, s.x1, s.y1) && Inside(b, s.x2, s.y2)
    ensures ClipSeg(b, s) == Some(s)
  {
  }

  /** A segment whose endpoints are both beyond one edge is dropped without clipping. */
  lemma ClipRejectsShared(b: WorldBox, s: Seg)
    requires Ordered(b) && Meet(Outcode(b, s.x1, s.y1), Outcode(b, s.x2, s.y2))
    ensures ClipSeg(b, s) == None
  {
  }

  /** Whatever is drawn lies inside the rectangle and is a piece of the original segment. */
  lemma ClipResult(b: WorldBox, s: Seg)
    requires Ordered(b) && ClipSeg(b, s).Some?
    ensures var c := ClipSeg(b, s).value;
      Inside(b, c.x1, c.y1) && Inside(b, c.x2, c.y2)
    ensures OnOriginal(s, ClipLoop(b, Start(s)))
  {
    ClipLoopExit(b, Start(s));
    ClipLoopOnOriginal(b, s, Start(s));
    var f := ClipLoop(b, Start(s));
    OutcodeZeroIffInside(b, f.x1, f.y1);
    OutcodeZeroIffInside(b, f.x2, f.y2);
  }

  /** An endpoint that starts inside is never moved (only the outside endpoint is replaced). */
  lemma {:induction false} ClipLoopKeepsInsideStart(b: WorldBox, st: ClipState)
    requires Ordered(b) && !Any(Code1(b, st))
    ensures var f := ClipLoop(b, st); f.x1 == st.x1 && f.y1 == st.y1 && f.t1 == st.t1
    decreases Measure(b, st)
  {
    if Active(b, st) {
      StepShrinks(b, st);
      ClipLoopKeepsInsideStart(b, Step(b, st));
    }
  }

  /** The clip loop of the source, on the four endpoint coordinates. */
  method ClipSegment(b: WorldBox, s: Seg) returns (r: Option<Seg>)
    requires Ordered(b)
    ensures r == ClipSeg(b, s)
  {
    var sx1, sy1, sx2, sy2 := s.x1, s.y1, s.x2, s.y2;
    ghost var t1, t2 := 0.0, 1.0;
    var code1 := Outcode(b, sx1, sy1);
    var code2 := Outcode(b, sx2, sy2);
    while Any(code1) || Any(code2)
      invariant code1 == Outcode(b, sx1, sy1) && code2 == Outcode(b, sx2, sy2)
      invariant ClipLoop(b, ClipState(sx1, sy1, sx2, sy2, t1, t2)) == ClipLoop(b, Start(s))
      decreases Count(Union(code1, code2))
    {
      if Meet(code1, code2) {
        break;
      }
      ghost var st := ClipState(sx1, sy1, sx2, sy2, t1, t2);
      StepShrinks(b, st);
      sx1, sy1, sx2, sy2, code1, code2, t1, t2 := ClipStep(b, sx1, sy1, sx2, sy2, code1, code2, t1, t2);
    }
    if !(Any(code1) && Any(code2)) {
      r := Some(Seg(sx1, sy1, sx2, sy2));
    } else {
      r := None;
    }
  }

  /** The body of the clip loop: move the endpoint cd came from onto the picked edge. */
  method ClipStep(b: WorldBox, sx1: real, sy1: real, sx2: real, sy2: real, code1: Code, code2: Code,
                  ghost t1: real, ghost t2: real)
      returns (nx1: real, ny1: real, nx2: real, ny2: real, ncode1: Code, ncode2: Code,
               ghost nt1: real, ghost nt2: real)
    requires Ordered(b) && Active(b, ClipState(sx1, sy1, sx2, sy2, t1, t2))
    requires code1 == Outcode(b, sx1, sy1) && code2 == Outcode(b, sx2, sy2)
    ensures ClipState(nx1, ny1, nx2, ny2, nt1, nt2) == Step(b, ClipState(sx1, sy1, sx2, sy2, t1, t2))
    ensures ncode1 == Outcode(b, nx1, ny1) && ncode2 == Outcode(b, nx2, ny2)
  {
    ghost var st := ClipState(sx1, sy1, sx2, sy2, t1, t2);
    var cd := if Any(code1) then code1 else code2;
    assert cd == Cd(b, st);
    Straddles(b, st);
    var tx, ty := CrossEdge(b, cd, sx1, sy1, sx2, sy2);
    ghost var c := Crossing(b, st);
    assert tx == c.0 && ty == c.1;
    ghost var next := Step(b, st);
    nx1, ny1, nx2, ny2, ncode1, ncode2 := sx1, sy1, sx2, sy2, code1, code2;
    if cd == code1 {
      assert next == ReplaceFirst(st, c);
      nx1, ny1 := tx, ty;
      ncode1 := Outcode(b, nx1, ny1);
    } else {
      assert next == ReplaceSecond(st, c);
      nx2, ny2 := tx, ty;
      ncode2 := Outcode(b, nx2, ny2);
    }
    nt1, nt2 := next.t1, next.t2;
  }

  /** The crossing computation of the body of the clip loop: the first violated edge in cd. */
  method CrossEdge(b: WorldBox, cd: Code, sx1: real, sy1: real, sx2: real, sy2: real)
      returns (tx: real, ty: real)
    requires Any(cd) && Usable(PickEdge(cd), sx1, sy1, sx2, sy2)
    ensures var c := CrossingAt(b, PickEdge(cd), sx1, sy1, sx2, sy2); tx == c.0 && ty == c.1
  {
    if cd.left {
      ty := Cross(sy1, sy2, b.orgX, sx1, sx2);
      tx := b.orgX;
    } else if cd.right {
      ty := Cross(sy1, sy2, b.oppX, sx1, sx2);
      tx := b.oppX;
    } else if cd.bottom {
      tx := Cross(sx1, sx2, b.orgY, sy1, sy2);
      ty := b.orgY;
    } else {
      tx := Cross(sx1, sx2, b.oppY, sy1, sy2);
      ty := b.oppY;
    }
  }
}
