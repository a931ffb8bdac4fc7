/**
 * The zoom lasso ("moving ants"). The four one-pixel strips that form
 * the lasso's border are copied to backing pixmaps before the lasso is
 * painted and copied back to erase it. Pixels are not modelled: the
 * drawable's side of each copy is a log entry, and a backing pixmap is a
 * flag saying whether its slot is allocated.
 */
module Ants {

  /** A GdkRectangle. */
  datatype Rect = Rect(x: int, y: int, width: int, height: int)

  /** The int bbox[4] of the lasso: corners (b0, b1) and (b2, b3). */
  datatype BBox = BBox(b0: int, b1: int, b2: int, b3: int)

  /** A lasso side: 0 top, 1 right, 2 bottom, 3 left. */
  type Side = k: int | 0 <= k < 4

  /** What the lasso does to the drawable. */
  datatype AntsCmd =
    | Save(side: Side, r: Rect)                  // drawable strip copied to its backing pixmap
    | Restore(side: Side, r: Rect, held: bool)   // backing pixmap (NULL unless held) copied back
    | Paint(r: Rect)                             // a filled rectangle in the lasso colour

  /** A side length as store_background takes it: 0 becomes 1, anything else is kept. */
  function Extent(d: int): (e: int)
    ensures d == 0 ==> e == 1
    ensures d != 0 ==> e == d
  {
    if d == 0 then 1 else d
  }

  /** storage_coords for a bbox: top, right, bottom and left strip. */
  function Strips(b: BBox): (s: seq<Rect>)
    ensures |s| == 4
  {
    var w, h := Extent(b.b2 - b.b0), Extent(b.b3 - b.b1);
    [Rect(b.b0, b.b1, w, 1), Rect(b.b2, b.b1, 1, h), Rect(b.b0, b.b3, w, 1), Rect(b.b0, b.b1, 1, h)]
  }

  predicate Contains(r: Rect, x: int, y: int) {
    r.x <= x < r.x + r.width && r.y <= y < r.y + r.height
  }

  predicate Covered(s: seq<Rect>, x: int, y: int)
    requires |s| == 4
  {
    Contains(s[0], x, y) || Contains(s[1], x, y) || Contains(s[2], x, y) || Contains(s[3], x, y)
  }

  /** The outline of the closed pixel rectangle from (b0, b1) to (b2, b3). */
  predicate OnBorder(b: BBox, x: int, y: int) {
    (b.b0 <= x <= b.b2 && (y == b.b1 || y == b.b3)) || (b.b1 <= y <= b.b3 && (x == b.b0 || x == b.b2))
  }

  /**
   * For a normalised bbox of positive size the strips cover exactly the
   * outline, except the lower-right corner pixel, which no strip reaches.
   */
  lemma StripsCoverBorder(b: BBox, x: int, y: int)
    requires b.b0 < b.b2 && b.b1 < b.b3
    ensures Covered(Strips(b), x, y) <==> OnBorder(b, x, y) && !(x == b.b2 && y == b.b3)
  {
  }

  /** All four slots hold a pixmap. */
  predicate AllHeld(s: seq<bool>) {
    |s| == 4 && s[0] && s[1] && s[2] && s[3]
  }

  /** No slot holds a pixmap. */
  predicate NoneHeld(s: seq<bool>) {
    |s| == 4 && !s[0] && !s[1] && !s[2] && !s[3]
  }

  function Saves(s: seq<Rect>): seq<AntsCmd>
    requires |s| == 4
  {
    [Save(0, s[0]), Save(1, s[1]), Save(2, s[2]), Save(3, s[3])]
  }

  function Restores(s: seq<Rect>, held: seq<bool>): seq<AntsCmd>
    requires |s| == 4 && |held| == 4
  {
    [Restore(0, s[0], held[0]), Restore(1, s[1], held[1]), Restore(2, s[2], held[2]), Restore(3, s[3], held[3])]
  }

  function Paints(s: seq<Rect>): seq<AntsCmd>
    requires |s| == 4
  {
    [Paint(s[0]), Paint(s[1]), Paint(s[2]), Paint(s[3])]
  }

  /**
   * A restore that follows a store writes back, side by side, the very
   * strips the store saved, each from a held pixmap.
   */
  lemma RestoreUndoesStore(b: BBox)
    ensures var saved, restored := Saves(Strips(b)), Restores(Strips(b), [true, true, true, true]);
      forall k :: 0 <= k < 4 ==> restored[k].side == saved[k].side && restored[k].r == saved[k].r && restored[k].held
  {
  }

  /** A moving_ants_t. */
  class MovingAnts {
    /** backing_storage[4]: whether each slot holds a pixmap. */
    const backing: array<bool>
    /** storage_coords[4]. */
    const storageCoords: array<Rect>
    var hasStore: bool
    var out: seq<AntsCmd>

    predicate Valid()
      reads this
    {
      backing.Length == 4 && storageCoords.Length == 4
    }

    /** new_moving_ants: nothing stored; g_new0 zeroes the coordinates. */
    constructor ()
      ensures Valid() && fresh(backing) && fresh(storageCoords)
      ensures NoneHeld(backing[..]) && !hasStore && out == []
      ensures storageCoords[..] == [Rect(0, 0, 0, 0), Rect(0, 0, 0, 0), Rect(0, 0, 0, 0), Rect(0, 0, 0, 0)]
    {
      var slots := new bool[4];
      var side := 0;
      while side < 4
        invariant 0 <= side <= 4
        invariant forall k :: 0 <= k < side ==> !slots[k]
      {
        slots[side] := false;
        side := side + 1;
      }
      var coords := new Rect[4](_ => Rect(0, 0, 0, 0));
      backing, storageCoords := slots, coords;
      hasStore := false;
      out := [];
      new;
      assert storageCoords[..] == [storageCoords[0], storageCoords[1], storageCoords[2], storageCoords[3]];
    }

    /** free_backing_storage: every held slot is released and set to NULL. */
    method FreeBackingStorage()
      requires Valid()
      modifies backing
      ensures NoneHeld(backing[..])
    {
      var side := 0;
      while side < 4
        invariant 0 <= side <= 4
        invariant forall k :: 0 <= k < side ==> !backing[k]
      {
        if backing[side] {
          backing[side] := false;
        }
        side := side + 1;
      }
    }

    /** moving_ants_store_background: lay out the strips, then save each. */
    method StoreBackground(b: BBox)
      requires Valid()
      modifies this, backing, storageCoords
      ensures Valid() && storageCoords[..] == Strips(b) && AllHeld(backing[..]) && hasStore
      ensures out == old(out) + Saves(Strips(b))
    {
      var width := b.b2 - b.b0;
      var height := b.b3 - b.b1;
      if width == 0 {
        width := 1;
      }
      if height == 0 {
        height := 1;
      }
      storageCoords[0] := Rect(b.b0, b.b1, width, 1);
      storageCoords[1] := Rect(b.b2, b.b1, 1, height);
      storageCoords[2] := Rect(b.b0, b.b3, width, 1);
      storageCoords[3] := Rect(b.b0, b.b1, 1, height);
      FreeBackingStorage();
      ghost var strips := storageCoords[..];
      assert strips == Strips(b);
      var side := 0;
      while side < 4
        invariant 0 <= side <= 4 && storageCoords[..] == strips
        invariant forall k :: 0 <= k < side ==> backing[k]
        invariant out == old(out) + Saves(strips)[..side]
      {
        backing[side] := true;
        out := out + [Save(side, storageCoords[side])];
        assert Saves(strips)[..side + 1] == Saves(strips)[..side] + [Save(side, strips[side])];
        side := side + 1;
      }
      assert Saves(strips)[..4] == Saves(strips);
      hasStore := true;
    }

    /** moving_ants_restore_background: copy every strip back, then release the slots. */
    method RestoreBackground()
      requires Valid()
      modifies this, backing
      ensures Valid() && NoneHeld(backing[..]) && !hasStore
      ensures storageCoords[..] == old(storageCoords[..])
      ensures out == old(out) + Restores(old(storageCoords[..]), old(backing[..]))
    {
      ghost var strips, held := storageCoords[..], backing[..];
      var side := 0;
      while side < 4
        invariant 0 <= side <= 4 && backing[..] == held
        invariant out == old(out) + Restores(strips, held)[..side]
      {
        out := out + [Restore(side, storageCoords[side], backing[side])];
        assert Restores(strips, held)[..side + 1] == Restores(strips, held)[..side] + [Restore(side, strips[side], held[side])];
        side := side + 1;
      }
      assert Restores(strips, held)[..4] == Restores(strips, held);
      FreeBackingStorage();
      hasStore := false;
    }

    /** moving_ants_draw_lasso: erase the old lasso if one is up, save under the new one, paint it. */
    method DrawLasso(b: BBox)
      requires Valid()
      modifies this, backing, storageCoords
      ensures Valid() && storageCoords[..] == Strips(b) && AllHeld(backing[..]) && hasStore
      ensures out == old(out)
        + (if old(hasStore) then Restores(old(storageCoords[..]), old(backing[..])) else [])
        + Saves(Strips(b)) + Paints(Strips(b))
    {
      if hasStore {
        RestoreBackground();
      }
      ghost var before := out;
      StoreBackground(b);
      var side := 0;
      while side < 4
        invariant 0 <= side <= 4 && storageCoords[..] == Strips(b) && AllHeld(backing[..]) && hasStore
        invariant out == before + Saves(Strips(b)) + Paints(Strips(b))[..side]
      {
        out := out + [Paint(storageCoords[side])];
        assert Paints(Strips(b))[..side + 1] == Paints(Strips(b))[..side] + [Paint(Strips(b)[side])];
        side := side + 1;
      }
      assert Paints(Strips(b))[..4] == Paints(Strips(b));
    }
  }
}
