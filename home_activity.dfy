/** The home-screen activity: the menu state it keeps between button polls,
    what happens when it is entered, how a poll of the buttons moves the
    selection or fires an action, and what one render pass lays out. */
module Home {
  import opened Wrappers
  import opened Menu
  import opened BookTitle
  import opened TextLayout
  import opened Shapes
  import opened CardGeometry
  import opened ScreenComponents

  /** The fonts the home screen measures text in. */
  datatype Font = Ui12 | Ui10

  /** The renderer's font metrics, as far as the layout uses them. */
  datatype Metrics = Metrics(textWidth: (Font, string) -> int, spaceWidth: Font -> int, lineHeight: Font -> int)

  /** One menu tile as drawn: filled when selected, with its label inverted. */
  datatype Tile = Tile(rect: Rect, caption: string, selected: bool)

  /** The text on the book card. */
  datatype CardText =
    | BookText(titleLines: seq<string>, titleY: int, author: Option<string>)
    | NoOpenBook

  /** Everything one render pass places on the screen. */
  datatype Frame = Frame(card: Rect, bookSelected: bool, bookmark: Rect, notch: seq<Rect>,
                         text: CardText, tiles: seq<Tile>, battery: BatteryIcon)

  /** Up or Left was pressed. */
  predicate PrevPressed(pressed: set<Button>)
  {
    Up in pressed || Left in pressed
  }

  /** Down or Right was pressed. */
  predicate NextPressed(pressed: set<Button>)
  {
    Down in pressed || Right in pressed
  }

  /** The title's fitting box for a page of the given width: the UI 12 font,
      and the card's width less 40 pixels of padding. */
  function TitleBox(m: Metrics, pageWidth: nat): TextBox
  {
    TextBox(s => m.textWidth(Ui12, s), m.spaceWidth(Ui12), pageWidth / 2 - CardTextPadding)
  }

  /** Height of the title block and, when there is an author, one and a half author lines. */
  function TextBlockHeight(m: Metrics, lineCount: nat, hasAuthor: bool): int
  {
    m.lineHeight(Ui12) * lineCount + (if hasAuthor then TruncDiv(m.lineHeight(Ui10) * 3, 2) else 0)
  }

  /** A block of the given height starting at y sits in the middle of the box:
      the space left above and below it differs by at most one pixel (either
      may be negative when the block is taller than the box). */
  predicate VerticallyCentred(y: int, height: int, boxY: int, boxHeight: int)
  {
    var above := y - boxY;
    var below := (boxY + boxHeight) - (y + height);
    -1 <= below - above <= 1
  }

  class HomeActivity {
    var hasContinueReading: bool
    var selectorIndex: int
    var updateRequired: bool
    var lastBookTitle: string
    var lastBookAuthor: string

    /** The selection is always one of the menu's entries. */
    ghost predicate Valid()
      reads this
    {
      0 <= selectorIndex < MenuItemCount(hasContinueReading)
    }

    constructor ()
      ensures Valid()
      ensures !hasContinueReading && selectorIndex == 0 && !updateRequired
      ensures lastBookTitle == [] && lastBookAuthor == []
    {
      hasContinueReading := false;
      selectorIndex := 0;
      updateRequired := false;
      lastBookTitle := [];
      lastBookAuthor := [];
    }

    /** Entering the activity: there is a book to continue when the saved path
        is non-empty and the file exists (`fileExists`); its title and author
        are then taken as SetBookInfo says.  The selection goes back to the
        first entry and a redraw is requested. */
    method OnEnter(openEpubPath: string, fileExists: bool, epubTitle: string, epubAuthor: string)
      modifies this
      ensures Valid()
      ensures hasContinueReading == (openEpubPath != [] && fileExists)
      ensures selectorIndex == 0 && updateRequired
      ensures hasContinueReading ==> lastBookTitle == DisplayTitle(openEpubPath, epubTitle)
      ensures !hasContinueReading ==> lastBookTitle == old(lastBookTitle)
      ensures lastBookAuthor ==
                if hasContinueReading && EndsWith(Basename(openEpubPath), ".epub") && epubAuthor != []
                then epubAuthor else old(lastBookAuthor)
    {
      hasContinueReading := openEpubPath != [] && fileExists;

      if hasContinueReading {
        SetBookInfo(openEpubPath, epubTitle, epubAuthor);
      }

      selectorIndex := 0;
      updateRequired := true;
    }

    /** The title is the file name of the path; for `.epub` files it is the
        metadata title (`epubTitle`, "" when absent) when there is one, for
        `.xtch` and `.xtc` files the extension is cut off.  The author is only
        ever overwritten, by non-empty epub metadata (`epubAuthor`): otherwise
        the previous book's author stays. */
    method SetBookInfo(openEpubPath: string, epubTitle: string, epubAuthor: string)
      modifies this`lastBookTitle, this`lastBookAuthor
      ensures lastBookTitle == DisplayTitle(openEpubPath, epubTitle)
      ensures lastBookAuthor ==
                if EndsWith(Basename(openEpubPath), ".epub") && epubAuthor != []
                then epubAuthor else old(lastBookAuthor)
    {
      var title := openEpubPath;
      var lastSlash := LastIndexOf(title, '/');
      if lastSlash.Some? {
        title := title[lastSlash.value + 1..];
      }
      assert title == Basename(openEpubPath);
      var ext4 := Tail(title, 4);
      var ext5 := Tail(title, 5);
      DisplayTitleCases(openEpubPath, epubTitle);
      if ext5 == ".epub" {
        if epubTitle != [] {
          title := epubTitle;
        }
        if epubAuthor != [] {
          lastBookAuthor := epubAuthor;
        }
      } else if ext5 == ".xtch" {
        title := title[..|title| - 5];
      } else if ext4 == ".xtc" {
        title := title[..|title| - 4];
      }
      lastBookTitle := title;
    }

    /** One poll of the buttons.  A released Confirm is checked first: it
        returns the action of the selected entry and changes nothing.
        Otherwise Up/Left moves the selection back and Down/Right forward,
        wrapping around, and requests a redraw; previous wins over next. */
    method Loop(pressed: set<Button>, released: set<Button>) returns (action: Option<MenuAction>)
      requires Valid()
      modifies this
      ensures Valid()
      ensures hasContinueReading == old(hasContinueReading)
      ensures lastBookTitle == old(lastBookTitle) && lastBookAuthor == old(lastBookAuthor)
      ensures Confirm in released ==>
                && action.Some?
                && action == ConfirmAction(hasContinueReading, selectorIndex)
                && selectorIndex == old(selectorIndex) && updateRequired == old(updateRequired)
      ensures Confirm !in released && PrevPressed(pressed) ==>
                && action == None && updateRequired
                && selectorIndex == PrevIndex(old(selectorIndex), MenuItemCount(hasContinueReading))
      ensures Confirm !in released && !PrevPressed(pressed) && NextPressed(pressed) ==>
                && action == None && updateRequired
                && selectorIndex == NextIndex(old(selectorIndex), MenuItemCount(hasContinueReading))
      ensures Confirm !in released && !PrevPressed(pressed) && !NextPressed(pressed) ==>
                && action == None
                && selectorIndex == old(selectorIndex) && updateRequired == old(updateRequired)
    {
      var prevPressed := Up in pressed || Left in pressed;
      var nextPressed := Down in pressed || Right in pressed;
      var menuCount := MenuItemCount(hasContinueReading);

      action := None;
      if Confirm in released {
        if hasContinueReading {
          if selectorIndex == 0 {
            action := Some(ContinueReading);
          } else if selectorIndex == 1 {
            action := Some(ReaderOpen);
          } else if selectorIndex == 2 {
            action := Some(FileTransferOpen);
          } else if selectorIndex == 3 {
            action := Some(SettingsOpen);
          }
        } else {
          if selectorIndex == 0 {
            action := Some(ReaderOpen);
          } else if selectorIndex == 1 {
            action := Some(FileTransferOpen);
          } else if selectorIndex == 2 {
            action := Some(SettingsOpen);
          }
        }
      } else if prevPressed {
        selectorIndex := (selectorIndex + menuCount - 1) % menuCount;
        updateRequired := true;
      } else if nextPressed {
        selectorIndex := (selectorIndex + 1) % menuCount;
        updateRequired := true;
      }
    }

    /** One render pass, as values: the card filled when the book is selected,
        the bookmark and its notch, the card text (title lines and trimmed
        author when there is a book), the three tiles with the selected one
        filled, and the battery gauge.  A trim that underflows fails the pass.
        For a valid selection exactly one element is highlighted, and it is
        the one whose action confirm fires. */
    method Render(m: Metrics, pageWidth: nat, pageHeight: nat, percentage: uint16) returns (r: Result<Frame>)
      ensures r.Underflow? <==>
                hasContinueReading
                && (Wrap(TitleBox(m, pageWidth), Words(lastBookTitle)).Underflow?
                    || (lastBookAuthor != []
                        && TrimLine(s => m.textWidth(Ui10, s), pageWidth / 2 - CardTextPadding, lastBookAuthor).Underflow?))
      ensures r.Ok? ==>
                && r.value.card == BookCard(pageWidth, pageHeight)
                && r.value.bookSelected == BookSelected(hasContinueReading, selectorIndex)
                && r.value.bookmark == Bookmark(r.value.card)
                && |r.value.notch| == NotchDepth(r.value.bookmark.width, r.value.bookmark.height)
                && (forall i :: 0 <= i < |r.value.notch| ==>
                      r.value.notch[i] == Rect(r.value.bookmark.x + i, r.value.bookmark.y + r.value.bookmark.height - 1 - i,
                                               r.value.bookmark.width - 2 * i, 1))
                && r.value.battery == DrawBattery(20, pageHeight - 30, percentage)
                && |r.value.tiles| == TileCount
      ensures r.Ok? ==> forall t :: 0 <= t < TileCount ==>
                r.value.tiles[t] == Tile(TileRect(pageWidth, MenuStartY(pageHeight, pageHeight / 2), t), TileLabel(t),
                                         selectorIndex == OverallIndex(hasContinueReading, t))
      ensures r.Ok? && !hasContinueReading ==> r.value.text == NoOpenBook
      ensures r.Ok? && hasContinueReading ==>
                && r.value.text.BookText?
                && r.value.text.titleLines == Wrap(TitleBox(m, pageWidth), Words(lastBookTitle)).value
                && (r.value.text.author.Some? <==> lastBookAuthor != [])
                && (lastBookAuthor != [] ==>
                      r.value.text.author.value
                        == TrimLine(s => m.textWidth(Ui10, s), pageWidth / 2 - CardTextPadding, lastBookAuthor).value)
      ensures r.Ok? && hasContinueReading ==>
                r.value.text.titleY
                  == BookY + TruncDiv(BookCard(pageWidth, pageHeight).height
                                        - TextBlockHeight(m, |r.value.text.titleLines|, lastBookAuthor != []), 2)
      ensures r.Ok? && hasContinueReading ==>
                VerticallyCentred(r.value.text.titleY,
                                  TextBlockHeight(m, |r.value.text.titleLines|, lastBookAuthor != []),
                                  BookY, BookCard(pageWidth, pageHeight).height)
      ensures r.Ok? && Valid() ==>
                && (r.value.bookSelected <==> ConfirmAction(hasContinueReading, selectorIndex) == Some(ContinueReading))
                && (forall t :: 0 <= t < TileCount ==>
                      (r.value.tiles[t].selected <==> ConfirmAction(hasContinueReading, selectorIndex) == Some(TileAction(t))))
    {
      var card := BookCard(pageWidth, pageHeight);
      var bookSelected := BookSelected(hasContinueReading, selectorIndex);
      var bookmark := Bookmark(card);
      var notch := NotchStrips(bookmark.x, bookmark.y, bookmark.width, bookmark.height);

      var text := NoOpenBook;
      if hasContinueReading {
        var box := TitleBox(m, pageWidth);
        var lines := LayoutTitle(box, lastBookTitle);
        if lines.Underflow? {
          return Underflow;
        }
        var totalTextHeight := TextBlockHeight(m, |lines.value|, lastBookAuthor != []);
        var titleYStart := BookY + TruncDiv(card.height - totalTextHeight, 2);
        var author := None;
        if lastBookAuthor != [] {
          var trimmedAuthor := TrimToWidth(s => m.textWidth(Ui10, s), box.maxWidth, lastBookAuthor);
          if trimmedAuthor.Underflow? {
            return Underflow;
          }
          author := Some(trimmedAuthor.value);
        }
        text := BookText(lines.value, titleYStart, author);
      }

      var menuStartY := MenuStartY(pageHeight, card.height);
      var tiles: seq<Tile> := [];
      for i := 0 to TileCount
        invariant |tiles| == i
        invariant forall t :: 0 <= t < i ==>
                    tiles[t] == Tile(TileRect(pageWidth, menuStartY, t), TileLabel(t),
                                     selectorIndex == OverallIndex(hasContinueReading, t))
      {
        var selected := selectorIndex == OverallIndex(hasContinueReading, i);
        tiles := tiles + [Tile(TileRect(pageWidth, menuStartY, i), TileLabel(i), selected)];
      }

      var battery := DrawBattery(20, pageHeight - 30, percentage);
      if Valid() {
        HighlightMatchesConfirm(hasContinueReading, selectorIndex);
      }
      r := Ok(Frame(card, bookSelected, bookmark, notch, text, tiles, battery));
    }
  }
}
