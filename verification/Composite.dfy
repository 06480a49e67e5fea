/**
 * What generateImage (src/App.jsx) draws, as functions of the nine grid
 * slots and of the outcome of decoding each filled slot's picture: a white
 * background, then one block of commands per cell in index order.
 */
module Composite {
  import opened Wrappers
  import opened Media
  import opened Layout
  import opened Geometry
  import opened Canvas

  /** Side of the output canvas: 1580 px. */
  function Side(): int { CanvasSide(CellSize, Gap) }

  /** The square of cell i, in canvas coordinates. */
  function CellRect(i: nat): Rect
    requires i < CellCount
  {
    Rect(CellX(i, CellSize, Gap) as real, CellY(i, CellSize, Gap) as real, CellSize as real, CellSize as real)
  }

  /** The rounded square of cell i, used both to fill and to clip. */
  function CellPath(i: nat): seq<Seg>
    requires i < CellCount
  {
    var c := CellRect(i);
    RoundedRectPath(c.x, c.y, c.w, c.h, CornerRadius as real)
  }

  /**
   * The commands for cell i: an empty slot is filled with the placeholder
   * colour; a filled slot whose picture decodes is drawn, cover-fitted and
   * clipped to the rounded square; a filled slot whose picture does not
   * decode is filled with the error colour.
   */
  function CellCommands(i: nat, slot: Option<DataUrl>, decoded: Option<Dims>): seq<Cmd>
    requires i < CellCount
  {
    match slot
    case None => [PathFill(CellPath(i), Slate50)]
    case Some(src) =>
      match decoded
      case Some(d) =>
        var c := CellRect(i);
        [SaveState, ClipPath(CellPath(i)), ImageDraw(src, CoverFit(d.width, d.height, c.x, c.y, c.w)), RestoreState]
      case None => [PathFill(CellPath(i), Red100)]
  }

  /** The commands for cells 0 .. n-1, in order. */
  function CellsTrace(slots: seq<Option<DataUrl>>, decodes: seq<Option<Dims>>, n: nat): seq<Cmd>
    requires n <= CellCount && |slots| == CellCount && |decodes| == CellCount
  {
    if n == 0 then [] else CellsTrace(slots, decodes, n - 1) + CellCommands(n - 1, slots[n - 1], decodes[n - 1])
  }

  /** The trace grows by one cell block at a time. */
  lemma CellsTraceStep(slots: seq<Option<DataUrl>>, decodes: seq<Option<Dims>>, n: nat)
    requires n < CellCount && |slots| == CellCount && |decodes| == CellCount
    ensures CellsTrace(slots, decodes, n + 1) == CellsTrace(slots, decodes, n) + CellCommands(n, slots[n], decodes[n])
  {
  }

  /** The complete drawing: the white background, then all nine cells. */
  function CompositeTrace(slots: seq<Option<DataUrl>>, decodes: seq<Option<Dims>>): seq<Cmd>
    requires |slots| == CellCount && |decodes| == CellCount
  {
    [RectFill(Rect(0.0, 0.0, Side() as real, Side() as real), White)] + CellsTrace(slots, decodes, |slots|)
  }

  /** What a cell ends up showing. */
  datatype CellOutcome = PlaceholderCell | ImageCell | ErrorCell

  /** The outcome a slot and its decode result call for. */
  function Expected(slot: Option<DataUrl>, decoded: Option<Dims>): CellOutcome {
    if slot.None? then PlaceholderCell else if decoded.Some? then ImageCell else ErrorCell
  }

  /** The cell outcome a command paints, if it paints one. */
  function OutcomeOf(c: Cmd): Option<CellOutcome> {
    match c
    case PathFill(_, Slate50) => Some(PlaceholderCell)
    case PathFill(_, Red100) => Some(ErrorCell)
    case ImageDraw(_, _) => Some(ImageCell)
    case _ => None
  }

  /** How many commands of `cmds` paint outcome o. */
  function Tally(cmds: seq<Cmd>, o: CellOutcome): nat {
    if cmds == [] then 0 else (if OutcomeOf(cmds[0]) == Some(o) then 1 else 0) + Tally(cmds[1..], o)
  }

  /** How many of the first n slots call for outcome o. */
  function SlotTally(slots: seq<Option<DataUrl>>, decodes: seq<Option<Dims>>, n: nat, o: CellOutcome): nat
    requires n <= |slots| && n <= |decodes|
  {
    if n == 0 then 0
    else SlotTally(slots, decodes, n - 1, o) + (if Expected(slots[n - 1], decodes[n - 1]) == o then 1 else 0)
  }

  lemma {:induction false} TallyAppend(a: seq<Cmd>, b: seq<Cmd>, o: CellOutcome)
    ensures Tally(a + b, o) == Tally(a, o) + Tally(b, o)
  {
    if a == [] {
      assert a + b == b;
    } else {
      assert (a + b)[0] == a[0];
      assert (a + b)[1..] == a[1..] + b;
      TallyAppend(a[1..], b, o);
    }
  }

  lemma TallyOne(c: Cmd, o: CellOutcome)
    ensures Tally([c], o) == if OutcomeOf(c) == Some(o) then 1 else 0
  {
  }

  /** Each cell paints exactly one outcome, the one its slot calls for. */
  lemma OneOutcomePerCell(i: nat, slot: Option<DataUrl>, decoded: Option<Dims>, o: CellOutcome)
    requires i < CellCount
    ensures Tally(CellCommands(i, slot, decoded), o) == if o == Expected(slot, decoded) then 1 else 0
  {
    var p := CellPath(i);
    match slot
    case None =>
      TallyOne(PathFill(p, Slate50), o);
    case Some(src) =>
      match decoded
      case Some(d) =>
        var c := CellRect(i);
        var draw := ImageDraw(src, CoverFit(d.width, d.height, c.x, c.y, c.w));
        assert CellCommands(i, slot, decoded) == [SaveState, ClipPath(p)] + [draw] + [RestoreState];
        TallyAppend([SaveState, ClipPath(p)] + [draw], [RestoreState], o);
        TallyAppend([SaveState, ClipPath(p)], [draw], o);
        TallyAppend([SaveState], [ClipPath(p)], o);
        assert [SaveState] + [ClipPath(p)] == [SaveState, ClipPath(p)];
        TallyOne(SaveState, o);
        TallyOne(ClipPath(p), o);
        TallyOne(draw, o);
        TallyOne(RestoreState, o);
      case None =>
        TallyOne(PathFill(p, Red100), o);
  }

  /**
   * Painting cells 0 .. n-1 paints each outcome as often as those slots call
   * for it: one bad picture shows as one error cell and stops nothing.
   */
  lemma {:induction false} TraceTally(slots: seq<Option<DataUrl>>, decodes: seq<Option<Dims>>, n: nat, o: CellOutcome)
    requires n <= CellCount && |slots| == CellCount && |decodes| == CellCount
    ensures Tally(CellsTrace(slots, decodes, n), o) == SlotTally(slots, decodes, n, o)
  {
    if n > 0 {
      TraceTally(slots, decodes, n - 1, o);
      TallyAppend(CellsTrace(slots, decodes, n - 1), CellCommands(n - 1, slots[n - 1], decodes[n - 1]), o);
      OneOutcomePerCell(n - 1, slots[n - 1], decodes[n - 1], o);
    }
  }

  lemma {:induction false} SlotTallySum(slots: seq<Option<DataUrl>>, decodes: seq<Option<Dims>>, n: nat)
    requires n <= |slots| && n <= |decodes|
    ensures SlotTally(slots, decodes, n, PlaceholderCell) + SlotTally(slots, decodes, n, ImageCell)
          + SlotTally(slots, decodes, n, ErrorCell) == n
  {
    if n > 0 {
      SlotTallySum(slots, decodes, n - 1);
    }
  }

  /**
   * The complete drawing shows a placeholder for every empty slot, a picture
   * for every filled slot that decodes and an error fill for every filled slot
   * that does not: nine outcomes in all.
   */
  lemma CompositeTally(slots: seq<Option<DataUrl>>, decodes: seq<Option<Dims>>)
    requires |slots| == CellCount && |decodes| == CellCount
    ensures forall o :: Tally(CompositeTrace(slots, decodes), o) == SlotTally(slots, decodes, CellCount, o)
    ensures Tally(CompositeTrace(slots, decodes), PlaceholderCell) + Tally(CompositeTrace(slots, decodes), ImageCell)
          + Tally(CompositeTrace(slots, decodes), ErrorCell) == CellCount
  {
    var bg := [RectFill(Rect(0.0, 0.0, Side() as real, Side() as real), White)];
    forall o ensures Tally(CompositeTrace(slots, decodes), o) == SlotTally(slots, decodes, CellCount, o) {
      TallyAppend(bg, CellsTrace(slots, decodes, |slots|), o);
      TraceTally(slots, decodes, CellCount, o);
    }
    SlotTallySum(slots, decodes, CellCount);
  }

  /** A fill or clip path of the command lies in the box. */
  predicate PaintWithin(c: Cmd, box: Rect) {
    match c
    case PathFill(p, _) => PathWithin(p, box)
    case ClipPath(p) => PathWithin(p, box)
    case _ => true
  }

  /**
   * A cell's block fills and clips only inside the cell's own square (cells
   * are pairwise disjoint, Layout.CellsDisjoint), and a drawn picture covers
   * that square completely and is centred on it, so no background shows
   * through inside the clip.
   */
  lemma CellPaintConfined(i: nat, slot: Option<DataUrl>, decoded: Option<Dims>)
    requires i < CellCount
    ensures forall k :: 0 <= k < |CellCommands(i, slot, decoded)| ==> PaintWithin(CellCommands(i, slot, decoded)[k], CellRect(i))
    ensures forall k :: 0 <= k < |CellCommands(i, slot, decoded)| && CellCommands(i, slot, decoded)[k].ImageDraw? ==>
      Covers(CellCommands(i, slot, decoded)[k].r, CellRect(i)) && Centred(CellCommands(i, slot, decoded)[k].r, CellRect(i))
  {
  }
}
