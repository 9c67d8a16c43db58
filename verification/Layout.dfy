/** The dashboard's layout cursor: two columns of grid panels, rows across both. */
module Layout {

  datatype Rect = Rect(x: int, y: int, w: nat, h: nat)

  ghost predicate Disjoint(a: Rect, b: Rect) {
    a.x + a.w <= b.x || b.x + b.w <= a.x || a.y + a.h <= b.y || b.y + b.h <= a.y
  }

  ghost predicate NoOverlap(rects: seq<Rect>) {
    forall i, j :: 0 <= i < j < |rects| ==> Disjoint(rects[i], rects[j])
  }

  ghost predicate Within(rects: seq<Rect>, width: int) {
    forall r :: r in rects ==> 0 <= r.x && r.x + r.w <= width && 0 <= r.y
  }

  /** All of the rectangles end at y or above. */
  ghost predicate Above(rects: seq<Rect>, y: int) {
    forall r :: r in rects ==> r.y + r.h <= y
  }

  /** One more rectangle below the others, but for a last one that it stands beside. */
  lemma PlaceBelow(rects: seq<Rect>, r: Rect)
    requires NoOverlap(rects)
    requires Above(rects, r.y) || (rects != [] && Above(rects[..|rects| - 1], r.y) && Disjoint(rects[|rects| - 1], r))
    ensures NoOverlap(rects + [r])
  {
  }

  /** One more rectangle inside the width; the others, or all but the last of them, end at pos.y. */
  lemma OneMoreWithin(rects: seq<Rect>, pos: Rect, width: int, y: int)
    requires Within(rects, width) && 0 <= pos.x && pos.x + pos.w <= width && 0 <= pos.y
    requires Above(rects, pos.y) || (rects != [] && Above(rects[..|rects| - 1], pos.y) && rects[|rects| - 1].y == pos.y)
    ensures Within(rects + [pos], width) && (rects + [pos])[..|rects|] == rects
    ensures y >= pos.y + pos.h && (rects != [] ==> y >= rects[|rects| - 1].y + rects[|rects| - 1].h) ==>
      Above(rects + [pos], y)
  {
    if rects != [] { assert rects == rects[..|rects| - 1] + [rects[|rects| - 1]]; }
  }

  /** Calls of the two cursor functions. */
  datatype Call = Panel | Row

  class Cursor {
    const w: nat
    const h: nat
    var x: int
    var y: int
    var nextCol: int
    /** Everything handed out so far. */
    ghost var placed: seq<Rect>

    /**
     No two rectangles overlap and none leaves the two columns. At column 0 everything lies above
     the cursor; at column 1 only the panel to its left does not.
     */
    ghost predicate Valid()
      reads this
    {
      && NoOverlap(placed) && Within(placed, 2 * w)
      && y >= 0 && nextCol in {0, 1}
      && x == nextCol * w
      && (nextCol == 0 ==> Above(placed, y))
      && (nextCol == 1 ==> placed != [] && placed[|placed| - 1] == Rect(0, y, w, h) && Above(placed[..|placed| - 1], y))
    }

    /** Where a row would go now: a half-filled line is left, with a gap of one. */
    function NextRow(): int
      reads this
    {
      if nextCol == 1 then y + h + 1 else y
    }

    constructor (w: nat, h: nat)
      ensures Valid() && placed == [] && this.w == w && this.h == h
      ensures x == 0 && y == 0 && nextCol == 0
    {
      this.w, this.h, x, y, nextCol, placed := w, h, 0, 0, 0, [];
    }

    method NextGridPos() returns (pos: Rect)
      requires Valid()
      modifies this
      ensures Valid() && placed == old(placed) + [pos]
      ensures pos == Rect(old(x), old(y), w, h)
      ensures nextCol == 1 - old(nextCol) && x == nextCol * w && y == old(y) + (if old(nextCol) == 1 then h else 0)
    {
      hide NoOverlap, Within, Above;
      pos := Rect(x, y, w, h);
      PlaceBelow(placed, pos);
      placed := placed + [pos];
      if nextCol == 0 {
        nextCol := 1;
        x := w;
      } else {
        nextCol := 0;
        y := y + h;
        x := 0;
      }
      OneMoreWithin(old(placed), pos, 2 * w, y);
    }

    method NextRowPos() returns (pos: Rect)
      requires Valid()
      modifies this
      ensures Valid() && placed == old(placed) + [pos]
      ensures pos == Rect(0, old(NextRow()), 2 * w, 1)
      ensures nextCol == x == 0 && y == old(NextRow()) + 1
    {
      if nextCol == 1 {
        assert placed == placed[..|placed| - 1] + [placed[|placed| - 1]];
        x := 0;
        y := y + h + 1;
        nextCol := 0;
      }
      pos := Rect(0, y, w * 2, 1);
      PlaceBelow(placed, pos);
      placed := placed + [pos];
      y := y + 1;
    }

    ghost predicate Sized(r: Rect, call: Call) {
      match call
      case Panel => r.w == w && r.h == h
      case Row => r.w == 2 * w && r.h == 1
    }

    /** Any sequence of calls keeps all rectangles apart and inside the width. */
    method Place(calls: seq<Call>) returns (rects: seq<Rect>)
      requires Valid() && placed == []
      modifies this
      ensures Valid() && rects == placed && |rects| == |calls|
      ensures NoOverlap(rects) && Within(rects, 2 * w)
      ensures forall i :: 0 <= i < |calls| ==> Sized(rects[i], calls[i])
    {
      rects := [];
      for i := 0 to |calls|
        invariant Valid() && rects == placed && |rects| == i
        invariant forall k :: 0 <= k < i ==> Sized(rects[k], calls[k])
      {
        var pos: Rect;
        match calls[i] {
          case Panel => pos := NextGridPos();
          case Row => pos := NextRowPos();
        }
        rects := rects + [pos];
      }
    }

    /** A machine's section: a row and five panels, the last line half filled. */
    method MachPanels() returns (panels: seq<Rect>)
      requires Valid()
      modifies this
      ensures Valid() && placed == old(placed) + panels
      ensures panels == Section(old(NextRow()), w, h)
      ensures NextRow() == old(NextRow()) + SectionHeight(h)
    {
      hide NoOverlap, Within, Above, Grid;
      var row := NextRowPos();
      var changes := NextGridPos();
      var states := NextGridPos();
      var time := NextGridPos();
      var average := NextGridPos();
      var exceptions := NextGridPos();
      panels := [row, changes, states, time, average, exceptions];
      FivePanels(row.y, w, h);
    }

    /** The generated dashboard: the simulator's own row, four panels, then a section per machine. */
    method Dashboard(ids: seq<string>) returns (panels: seq<Rect>)
      requires Valid() && placed == [] && nextCol == 0 && y == 0
      modifies this
      ensures Valid() && panels == placed && NoOverlap(panels) && Within(panels, 2 * w)
      ensures panels == Grid(0, w, h, 4) + Sections(1 + 2 * h, w, h, |ids|)
    {
      hide NoOverlap, Within, Above, Grid, Section, SectionHeight;
      var row := NextRowPos();
      var topics := NextGridPos();
      var messages := NextGridPos();
      var peers := NextGridPos();
      var connections := NextGridPos();
      panels := [row, topics, messages, peers, connections];
      FourPanels(0, w, h);
      for i := 0 to |ids|
        invariant Valid() && panels == placed
        invariant NextRow() == 1 + 2 * h + i * SectionHeight(h)
        invariant panels == Grid(0, w, h, 4) + Sections(1 + 2 * h, w, h, i)
      {
        var section := MachPanels();
        panels := panels + section;
        OneMoreSection(i, h);
      }
    }
  }

  /** A row at top and the first n of its panels, two to a line. */
  function Grid(top: int, w: nat, h: nat, n: nat): seq<Rect> {
    [Rect(0, top, 2 * w, 1)] + seq(n, i requires 0 <= i < n => Rect(i % 2 * w, top + 1 + i / 2 * h, w, h))
  }

  lemma FourPanels(top: int, w: nat, h: nat)
    ensures Grid(top, w, h, 4) == [
      Rect(0, top, 2 * w, 1), Rect(0, top + 1, w, h), Rect(w, top + 1, w, h),
      Rect(0, top + 1 + h, w, h), Rect(w, top + 1 + h, w, h)]
  {
  }

  lemma FivePanels(top: int, w: nat, h: nat)
    ensures Grid(top, w, h, 5) == [
      Rect(0, top, 2 * w, 1), Rect(0, top + 1, w, h), Rect(w, top + 1, w, h),
      Rect(0, top + 1 + h, w, h), Rect(w, top + 1 + h, w, h), Rect(0, top + 1 + 2 * h, w, h)]
  {
  }

  function Section(top: int, w: nat, h: nat): seq<Rect> {
    Grid(top, w, h, 5)
  }

  /** A row, three lines of panels, and the gap left under a half-filled line. */
  function SectionHeight(h: nat): nat {
    3 * h + 2
  }

  /** The sections of n machines. */
  function Sections(top: int, w: nat, h: nat, n: nat): seq<Rect> {
    if n == 0 then [] else Sections(top, w, h, n - 1) + Section(top + (n - 1) * SectionHeight(h), w, h)
  }

  lemma OneMoreSection(i: nat, h: nat)
    ensures i * SectionHeight(h) + SectionHeight(h) == (i + 1) * SectionHeight(h)
  {
  }

  /** For any number of machines, machine i's section starts i section heights down. */
  lemma {:induction false} SectionAt(top: int, w: nat, h: nat, n: nat, i: nat)
    requires i < n
    ensures |Sections(top, w, h, n)| == 6 * n
    ensures Sections(top, w, h, n)[6 * i..6 * i + 6] == Section(top + i * SectionHeight(h), w, h)
  {
    hide SectionHeight;
    if n == 1 {
    } else {
      SectionAt(top, w, h, n - 1, if i < n - 1 then i else 0);
    }
  }

  /** With the shipped sizes machine i's row is at 17 + 26 i. */
  lemma ShippedRows(n: nat, i: nat)
    requires i < n
    ensures |Grid(0, 12, 8, 4) + Sections(17, 12, 8, n)| == 5 + 6 * n
    ensures (Grid(0, 12, 8, 4) + Sections(17, 12, 8, n))[5 + 6 * i] == Rect(0, 17 + 26 * i, 24, 1)
  {
    SectionAt(17, 12, 8, n, i);
    assert Sections(17, 12, 8, n)[6 * i] == Sections(17, 12, 8, n)[6 * i..6 * i + 6][0];
  }
}
