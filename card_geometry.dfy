/** Geometry of the home screen: the book card, its bookmark and the notch
    cut into the bookmark, and the three menu tiles below the card. */
module CardGeometry {
  import opened Shapes

  const Margin: int := 20
  /** Height reserved at the bottom of the screen for the button legend. */
  const BottomMargin: int := 60
  const BookY: int := 30
  const MenuTileHeight: int := 50
  const MenuSpacing: int := 10
  const TotalMenuHeight: int := 3 * MenuTileHeight + 2 * MenuSpacing
  /** Horizontal padding that keeps the title off the card's border. */
  const CardTextPadding: int := 40

  /** The book card: half the screen in each direction, centred horizontally,
      30 pixels from the top. */
  function BookCard(pageWidth: nat, pageHeight: nat): (r: Rect)
    ensures r.y == BookY && r.width == pageWidth / 2 && r.height == pageHeight / 2
    ensures 0 <= r.x && r.x + r.width <= pageWidth
    ensures 0 <= (pageWidth - (r.x + r.width)) - r.x <= 1
  {
    var bookWidth := pageWidth / 2;
    var bookHeight := pageHeight / 2;
    Rect((pageWidth - bookWidth) / 2, BookY, bookWidth, bookHeight)
  }

  /** The bookmark in the card's top-right corner: an eighth of the card wide,
      a fifth of it high, one pixel below the card's top edge and 8 pixels
      in from its right edge. */
  function Bookmark(card: Rect): (r: Rect)
    requires card.width >= 0 && card.height >= 0
    ensures r.width >= 0 && r.height >= 0
    // an eighth of the card's width and a fifth of its height, rounded down
    ensures 8 * r.width <= card.width < 8 * (r.width + 1)
    ensures 5 * r.height <= card.height < 5 * (r.height + 1)
    ensures r.x + r.width == card.x + card.width - 8 && r.y == card.y + 1
    ensures card.width >= 10 ==> card.x <= r.x
    ensures card.height >= 2 ==> r.y + r.height <= card.y + card.height
  {
    var width := card.width / 8;
    var height := card.height / 5;
    Rect(card.x + card.width - width - 8, card.y + 1, width, height)
  }

  /** How many one-pixel strips the notch loop draws: one per row of the
      lower half of the bookmark, until the strip would have no width. */
  function NotchDepth(width: nat, height: nat): nat
  {
    if height / 2 <= (width + 1) / 2 then height / 2 else (width + 1) / 2
  }

  /** The strips that carve the inverted-triangle notch: strip i is the row
      i pixels above the bookmark's bottom, inset by i pixels on both sides;
      the loop stops at half the height or when the width is used up. */
  method NotchStrips(x: int, y: int, width: nat, height: nat) returns (strips: seq<Rect>)
    ensures |strips| == NotchDepth(width, height)
    ensures forall i :: 0 <= i < |strips| ==>
              strips[i] == Rect(x + i, y + height - 1 - i, width - 2 * i, 1)
    ensures forall i :: 0 <= i < |strips| ==>
              && strips[i].width > 0
              && x <= strips[i].x && strips[i].x + strips[i].width <= x + width
              && strips[i].x - x == (x + width) - (strips[i].x + strips[i].width)
              && y + height - height / 2 <= strips[i].y < y + height
  {
    strips := [];
    var notchHeight := height / 2;
    var i := 0;
    while i < notchHeight
      invariant 0 <= i <= notchHeight
      invariant 2 * i <= width + 1
      invariant |strips| == i
      invariant forall k :: 0 <= k < i ==> strips[k] == Rect(x + k, y + height - 1 - k, width - 2 * k, 1)
    {
      var rowY := y + height - 1 - i;
      var xStart := x + i;
      var stripWidth := width - 2 * i;
      if stripWidth <= 0 {
        break;
      }
      strips := strips + [Rect(xStart, rowY, stripWidth, 1)];
      i := i + 1;
    }
  }

  /** Top of the first menu tile: 20 pixels below the card, but never so low
      that the three tiles reach into the bottom legend area. */
  function MenuStartY(pageHeight: int, bookHeight: int): (y: int)
    ensures y <= BookY + bookHeight + 20
    ensures y <= pageHeight - BottomMargin - TotalMenuHeight - Margin
    ensures y == BookY + bookHeight + 20 || y == pageHeight - BottomMargin - TotalMenuHeight - Margin
  {
    var menuStartY := BookY + bookHeight + 20;
    var maxMenuStartY := pageHeight - BottomMargin - TotalMenuHeight - Margin;
    if menuStartY > maxMenuStartY then maxMenuStartY else menuStartY
  }

  /** Menu tile i (0 to 2, top to bottom). */
  function TileRect(pageWidth: int, menuStartY: int, i: int): Rect
  {
    Rect(Margin, menuStartY + i * (MenuTileHeight + MenuSpacing), pageWidth - 2 * Margin, MenuTileHeight)
  }

  /** The tiles span the page between the side margins, are 10 pixels apart
      and so never overlap, and the last one ends at least a margin above the
      bottom legend area. */
  lemma TilesClearLegend(pageWidth: int, pageHeight: int, bookHeight: int)
    ensures var start := MenuStartY(pageHeight, bookHeight);
      && (forall i :: 0 <= i < 3 ==>
            TileRect(pageWidth, start, i).x == Margin
            && TileRect(pageWidth, start, i).x + TileRect(pageWidth, start, i).width == pageWidth - Margin)
      && (forall i :: 0 <= i < 2 ==>
            TileRect(pageWidth, start, i).y + TileRect(pageWidth, start, i).height + MenuSpacing
              == TileRect(pageWidth, start, i + 1).y)
      && TileRect(pageWidth, start, 2).y + TileRect(pageWidth, start, 2).height
           <= pageHeight - BottomMargin - Margin
  {
  }
}
