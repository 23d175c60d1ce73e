/** The home menu of the e-reader: its item count, the cyclic navigation rule,
    the action that confirm fires, and which card or tile is drawn highlighted. */
module Menu {
  import opened Wrappers

  /** What confirming a menu entry opens (the four `on...Open` callbacks). */
  datatype MenuAction = ContinueReading | ReaderOpen | FileTransferOpen | SettingsOpen

  /** The logical buttons that the input mapper reports. */
  datatype Button = Up | Down | Left | Right | Confirm

  /** Number of fixed tiles below the book card. */
  const TileCount := 3

  /** Number of selectable entries: the book card counts only when there is a book. */
  function MenuItemCount(hasContinueReading: bool): (n: int)
    ensures n == TileCount + 1 <==> hasContinueReading
    ensures n == TileCount <==> !hasContinueReading
  {
    if hasContinueReading then 4 else 3
  }

  /** Selection after "next": one forward, from the last entry back to the first. */
  function NextIndex(i: int, n: int): (j: int)
    requires 0 <= i < n
    ensures 0 <= j < n
    ensures j == if i == n - 1 then 0 else i + 1
  {
    (i + 1) % n
  }

  /** Selection after "previous": one back, from the first entry to the last. */
  function PrevIndex(i: int, n: int): (j: int)
    requires 0 <= i < n
    ensures 0 <= j < n
    ensures j == if i == 0 then n - 1 else i - 1
  {
    (i + n - 1) % n
  }

  /** "Previous" undoes "next" and "next" undoes "previous". */
  lemma PrevUndoesNext(i: int, n: int)
    requires 0 <= i < n
    ensures PrevIndex(NextIndex(i, n), n) == i
    ensures NextIndex(PrevIndex(i, n), n) == i
  {
  }

  /** The selection after pressing "next" k times. */
  function NextTimes(i: int, n: int, k: nat): (j: int)
    requires 0 <= i < n
    ensures 0 <= j < n
  {
    if k == 0 then i else NextIndex(NextTimes(i, n, k - 1), n)
  }

  /** Pressing "next" k times (at most once around) moves the selection k
      places forward, wrapping past the last entry. */
  lemma {:induction false} NextTimesShifts(i: int, n: int, k: nat)
    requires 0 <= i < n && k <= n
    ensures NextTimes(i, n, k) == if i + k < n then i + k else i + k - n
  {
    if k > 0 {
      NextTimesShifts(i, n, k - 1);
    }
  }

  /** Pressing "next" as many times as there are entries returns to the start. */
  lemma NextAllAroundIsIdentity(i: int, n: int)
    requires 0 <= i < n
    ensures NextTimes(i, n, n) == i
  {
    NextTimesShifts(i, n, n);
  }

  /** The action fired by confirm at a given selection: with a book, entry 0 is
      the book and the tiles follow; without, the tiles start at entry 0.  An
      index outside the menu fires nothing. */
  function ConfirmAction(hasContinueReading: bool, selectorIndex: int): (a: Option<MenuAction>)
    ensures a.Some? <==> 0 <= selectorIndex < MenuItemCount(hasContinueReading)
    ensures a == Some(ContinueReading) <==> BookSelected(hasContinueReading, selectorIndex)
  {
    if hasContinueReading then
      if selectorIndex == 0 then Some(ContinueReading)
      else if selectorIndex == 1 then Some(ReaderOpen)
      else if selectorIndex == 2 then Some(FileTransferOpen)
      else if selectorIndex == 3 then Some(SettingsOpen)
      else None
    else
      if selectorIndex == 0 then Some(ReaderOpen)
      else if selectorIndex == 1 then Some(FileTransferOpen)
      else if selectorIndex == 2 then Some(SettingsOpen)
      else None
  }

  /** The book card is drawn filled only when it exists and is selected. */
  predicate BookSelected(hasContinueReading: bool, selectorIndex: int)
  {
    hasContinueReading && selectorIndex == 0
  }

  /** The menu entry that tile `tile` (0, 1 or 2, top to bottom) stands for. */
  function OverallIndex(hasContinueReading: bool, tile: int): int
  {
    tile + (MenuItemCount(hasContinueReading) - TileCount)
  }

  /** The label drawn on each tile and the action it stands for. */
  function TileLabel(tile: int): string
    requires 0 <= tile < TileCount
  {
    ["Browse files", "File transfer", "Settings"][tile]
  }

  function TileAction(tile: int): MenuAction
    requires 0 <= tile < TileCount
  {
    [ReaderOpen, FileTransferOpen, SettingsOpen][tile]
  }

  /** What is drawn highlighted is exactly what confirm fires: the book card
      when confirm continues reading, and tile t when confirm opens tile t's
      action; for every valid selection exactly one of them is highlighted. */
  lemma HighlightMatchesConfirm(hasContinueReading: bool, selectorIndex: int)
    requires 0 <= selectorIndex < MenuItemCount(hasContinueReading)
    ensures (BookSelected(hasContinueReading, selectorIndex)
             <==> ConfirmAction(hasContinueReading, selectorIndex) == Some(ContinueReading))
    ensures forall t :: 0 <= t < TileCount ==>
              ((selectorIndex == OverallIndex(hasContinueReading, t))
               <==> ConfirmAction(hasContinueReading, selectorIndex) == Some(TileAction(t)))
    ensures (BookSelected(hasContinueReading, selectorIndex)
             <==> !exists t :: 0 <= t < TileCount && selectorIndex == OverallIndex(hasContinueReading, t))
  {
    if !BookSelected(hasContinueReading, selectorIndex) {
      var t := selectorIndex - (MenuItemCount(hasContinueReading) - TileCount);
      assert 0 <= t < TileCount && selectorIndex == OverallIndex(hasContinueReading, t);
    }
  }
}
