/** The battery gauge drawn in the bottom-left corner of the home screen:
    a 15 x 10 outline with a cap on the right, a fill proportional to the
    charge, and the percentage as text to its right. */
module ScreenComponents {
  import opened Shapes

  /** The C++ `uint16_t` the battery reading is held in. */
  newtype uint16 = x: int | 0 <= x < 0x1_0000

  const BatteryWidth: int := 15
  const BatteryHeight: int := 10
  /** Columns of the body that the fill may use: 1 left line, 2 body-end and cap columns, 2 spare. */
  const InnerWidth: int := BatteryWidth - 5

  /** Filled columns: the charge scaled to the inner width, plus one so that
      some fill always shows, clamped to the inner width. */
  function FilledWidth(percentage: uint16): (w: int)
    ensures 1 <= w <= InnerWidth
    ensures w == InnerWidth <==> percentage >= 90
    ensures percentage < 90 ==> w == percentage as int / 10 + 1
  {
    var filledWidth := percentage as int * (BatteryWidth - 5) / 100 + 1;
    if filledWidth > BatteryWidth - 5 then BatteryWidth - 5 else filledWidth
  }

  /** An empty battery still fills one column. */
  lemma EmptyBatteryFillsOneColumn()
    ensures FilledWidth(0) == 1
  {
  }

  /** More charge never draws less fill. */
  lemma FilledWidthMonotone(p: uint16, q: uint16)
    requires p <= q
    ensures FilledWidth(p) <= FilledWidth(q)
  {
  }

  datatype BatteryIcon = BatteryIcon(textX: int, textY: int, outline: seq<Segment>, fill: Rect)

  predicate SegmentWithin(s: Segment, x: int, y: int, width: int, height: int)
  {
    && x <= s.x0 < x + width && x <= s.x1 < x + width
    && y <= s.y0 < y + height && y <= s.y1 < y + height
  }

  /** The gauge at (left, top): the text at left + 20, the icon 7 pixels lower. */
  function DrawBattery(left: int, top: int, percentage: uint16): (g: BatteryIcon)
    ensures g.textX == left + 20 && g.textY == top
    ensures |g.outline| == 7
    ensures forall i :: 0 <= i < |g.outline| ==>
              SegmentWithin(g.outline[i], left, top + 7, BatteryWidth, BatteryHeight)
              && g.outline[i].x0 < g.textX && g.outline[i].x1 < g.textX
    // the body: top, bottom, left line and body end, around rows top+7..top+16
    ensures g.outline[0] == Segment(left, top + 7, left + 11, top + 7)
    ensures g.outline[1] == Segment(left, top + 16, left + 11, top + 16)
    ensures g.outline[2] == Segment(left, top + 7, left, top + 16)
    ensures g.outline[3] == Segment(left + 11, top + 7, left + 11, top + 16)
    // the cap: two stubs and the right edge, rows top+9..top+14
    ensures g.outline[4] == Segment(left + 12, top + 9, left + 14, top + 9)
    ensures g.outline[5] == Segment(left + 12, top + 14, left + 14, top + 14)
    ensures g.outline[6] == Segment(left + 14, top + 9, left + 14, top + 14)
    // the fill starts just inside the left line and the top line ...
    ensures g.fill == Rect(g.outline[2].x0 + 1, g.outline[0].y0 + 1, FilledWidth(percentage), BatteryHeight - 2)
    // ... and ends before the body end and just above the bottom line
    ensures g.fill.x + g.fill.width - 1 < g.outline[3].x0
    ensures g.fill.y + g.fill.height - 1 == g.outline[1].y0 - 1
  {
    var x := left;
    var y := top + 7;
    var outline := [
      Segment(x, y, x + BatteryWidth - 4, y),
      Segment(x, y + BatteryHeight - 1, x + BatteryWidth - 4, y + BatteryHeight - 1),
      Segment(x, y, x, y + BatteryHeight - 1),
      Segment(x + BatteryWidth - 4, y, x + BatteryWidth - 4, y + BatteryHeight - 1),
      Segment(x + BatteryWidth - 3, y + 2, x + BatteryWidth - 1, y + 2),
      Segment(x + BatteryWidth - 3, y + BatteryHeight - 3, x + BatteryWidth - 1, y + BatteryHeight - 3),
      Segment(x + BatteryWidth - 1, y + 2, x + BatteryWidth - 1, y + BatteryHeight - 3)
    ];
    BatteryIcon(left + 20, top, outline, Rect(x + 1, y + 1, FilledWidth(percentage), BatteryHeight - 2))
  }
}
