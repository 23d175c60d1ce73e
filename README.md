# Home screen of the CrossPoint e-reader firmware, in Dafny

This project models the home-screen activity of the e-reader (`HomeActivity`)
and the battery gauge it draws (`ScreenComponents::drawBattery`), and proves
properties of the model.

- **Menu** (`menu.dfy`): the number of entries (4 with a book to continue, 3
  without), the cyclic previous/next rule, the action confirm fires for each
  entry, and which card or tile is drawn highlighted.
- **HomeActivity** (`home_activity.dfy`): a class with the fields
  `hasContinueReading`, `selectorIndex`, `updateRequired`, `lastBookTitle` and
  `lastBookAuthor`. `OnEnter` derives the book title and resets the selection.
  `Loop` handles one poll of the buttons: a released Confirm is checked first,
  then Up/Left, then Down/Right. It returns the chosen action instead of
  calling the `on...Open` callbacks. `Render` computes one render pass as a
  `Frame` value.
- **BookTitle** (`book_title.dfy`): the title is the file name after the last
  `/`, with `.xtch` or `.xtc` cut off. For `.epub` files, the metadata title
  replaces it when there is one.
- **TextLayout** (`text_layout.dfy`): the hand-written space splitter, the
  greedy wrap into at most three lines, and the three trim loops that drop five
  characters and append `"..."`. Each loop is a method proved equal to a
  recursive specification function, and the properties are proved about those
  functions. Text width is an abstract `string -> int` per font, and nothing
  is assumed about it. The trims terminate because every cut shortens the text
  by two characters.
Text is a byte string, as in the firmware. The C++ `std::string` holds UTF-8
bytes, and `size()`, `resize(size() - 5)`, `find_last_of` and indexing all
count bytes. In this model a Dafny `char` stands for one byte of that UTF-8
text (only values below 256 occur), `|s|` is the byte count, and every width
function measures that byte string. So the splitter, the extension tests, the
five-character cuts and the underflow condition are all stated in bytes, just
as the source computes them. A cut may therefore fall inside a multi-byte
character, as it does in the firmware. For example, the author "Лев" is six
bytes, so its first cut is legal and leaves one byte plus `"..."`.

- **CardGeometry** (`card_geometry.dfy`): the book card, the bookmark, the
  strips that cut its notch, and the menu tiles. The tiles are clamped above
  the bottom button legend.
- **ScreenComponents** (`screen_components.dfy`): the battery fill width
  (scale, add one, clamp) and the outline segments of the icon.

Behaviour of the code that the model reproduces rather than corrects:

- The first title line starts with a space. The first word is appended to the
  empty line after `" "` (`FirstLineStartsWithSpace`).
- Suppose the third line is closed by the last word. Then the line holding
  that word is dropped, and no `"..."` marks the loss
  (`WrapDropsPendingLineAtCap`).
- The per-word trim stops at five characters, so a word can stay wider than
  the card (`TrimmedWordCanOverflow`).
- The line trim and the author trim cut five characters without checking the
  length. A cut taken at fewer than five characters makes `size() - 5` wrap
  around as an unsigned value, and the resize fails. The model returns
  `Underflow` there.
  - `LineTrimCanUnderflow` gives an input that reaches it: 10 pixels per
    character and a 20-pixel line.
  - `TrimLineSafeWhenShortTextFits` proves there is no underflow when every
    non-empty text shorter than five characters fits.
  - `Render` fails exactly when one of these trims underflows.
- The line and author trim loops also test for an empty string. That test never stops the
  line trim: after `"..."` is appended, the line always has at least three
  characters.
- The layout does not promise that every line fits the card. The fit test uses
  the current line's width plus one space width, not the width of the joined
  line, and a trimmed word may still be too wide.
- An empty battery still fills one column (`EmptyBatteryFillsOneColumn`).
- `onEnter` never clears `lastBookAuthor`. Only non-empty epub metadata
  overwrites it. So if the same activity object is entered again, and the book
  is now a `.xtc` opened after an epub, it keeps showing the epub's author.
  Whether the firmware reuses the object is not part of this model.
  `SetBookInfo` states the fact for one entry.

## Model

| member | source | states |
|---|---|---|
| `Menu.MenuItemCount` | src/activities/home/HomeActivity.cpp:17 | the count is 4 exactly when there is a book to continue, 3 exactly when there is not |
| `Menu.NextIndex` | src/activities/home/HomeActivity.cpp:113-115 | "next" keeps the selection in [0, count): it moves one forward, and the last entry wraps to the first |
| `Menu.PrevIndex` | src/activities/home/HomeActivity.cpp:110-112 | "previous" keeps the selection in [0, count): it moves one back, and the first entry wraps to the last |
| `Menu.PrevUndoesNext` | src/activities/home/HomeActivity.cpp:110-115 | previous undoes next, and next undoes previous |
| `Menu.NextTimesShifts` | src/activities/home/HomeActivity.cpp:113-115 | k presses of next (k at most the count) move the selection k places forward, wrapping past the last entry |
| `Menu.NextAllAroundIsIdentity` | src/activities/home/HomeActivity.cpp:113-115 | pressing next as many times as there are entries returns to the starting entry |
| `Menu.ConfirmAction` | src/activities/home/HomeActivity.cpp:88-109 | confirm fires an action exactly when the index is inside the menu; it continues reading exactly when the book card is the selected entry |
| `Menu.HighlightMatchesConfirm` | src/activities/home/HomeActivity.cpp:293-298 | for every valid selection the book card is highlighted iff confirm continues reading, tile t is highlighted iff confirm fires tile t's action, and the card is highlighted iff no tile is |
| `BookTitle.LastIndexOf` | src/activities/home/HomeActivity.cpp:30 | the position found holds the character and none follows it; no position means the character does not occur |
| `BookTitle.Basename` | src/activities/home/HomeActivity.cpp:29-33 | the file name has no '/', is a suffix of the path preceded by '/', and is the whole path when the path has no '/' |
| `BookTitle.Tail` | src/activities/home/HomeActivity.cpp:35-36 | the extension candidates are the last n characters, or empty when the name is shorter |
| `BookTitle.DisplayTitle` | src/activities/home/HomeActivity.cpp:35-51 | `.epub`: the metadata title if non-empty, else the file name; `.xtch`/`.xtc`: the file name without the extension; otherwise the file name; except with epub metadata it has no '/' |
| `TextLayout.RunLength` | src/activities/home/HomeActivity.cpp:190-193 | the word runs up to the first space or the end of the title, with no space inside |
| `TextLayout.SplitWords` | src/activities/home/HomeActivity.cpp:179-195 | the splitting loop yields exactly the title's maximal runs of non-space characters |
| `TextLayout.WordsPartitionTitle` | src/activities/home/HomeActivity.cpp:183-195 | every word is non-empty and has no space, and the words concatenated are the title's non-space characters in input order |
| `TextLayout.BlankTitleHasNoWords` | src/activities/home/HomeActivity.cpp:183-189 | a title has no words exactly when it is empty or all spaces |
| `TextLayout.Shorten` | src/activities/home/HomeActivity.cpp:220-221 | one trim step shortens the text by exactly 2 characters, keeps its prefix and ends it with "..." |
| `TextLayout.FitWord` | src/activities/home/HomeActivity.cpp:217-223 | a trimmed word fits the line or has at most 5 characters; a word that fits is unchanged; otherwise it is a prefix of the word followed by "..." |
| `TextLayout.TrimWord` | src/activities/home/HomeActivity.cpp:217-223 | the in-place word trim loop computes FitWord |
| `TextLayout.TrimLine` | src/activities/home/HomeActivity.cpp:210-213 | without underflow, the trimmed text is empty or fits, is no longer than the input, and is the input or a prefix of it followed by "..."; text that fits is unchanged; a too-wide non-empty text of fewer than 5 characters is an underflow |
| `TextLayout.TrimLineUnderflowWitness` | src/activities/home/HomeActivity.cpp:210-213 | an underflow happens only at some non-empty text of fewer than 5 characters that is too wide and is the input itself or a shortened text ending in "..." (converse of TrimLineSafeWhenShortTextFits) |
| `TextLayout.TrimToWidth` | src/activities/home/HomeActivity.cpp:263-266 | the in-place trim loop (last line and author) computes TrimLine, underflow included |
| `TextLayout.TrimLineSafeWhenShortTextFits` | src/activities/home/HomeActivity.cpp:210-213 | when every non-empty text shorter than 5 characters fits, the trim never underflows |
| `TextLayout.LineTrimCanUnderflow` | src/activities/home/HomeActivity.cpp:211 | at 10 px per character and a 20 px line, trimming "abcd..." reaches a cut at 3 characters |
| `TextLayout.TrimmedWordCanOverflow` | src/activities/home/HomeActivity.cpp:218 | at 10 px per character and a 20 px line, "abcdefg" is trimmed to "ab...", which is still 50 px wide |
| `TextLayout.TrimLineKeepsEllipsis` | src/activities/home/HomeActivity.cpp:208-213 | a line ending in "..." still ends in "..." after the trim |
| `TextLayout.Place` | src/activities/home/HomeActivity.cpp:217-237 | placing a word consumes it and either keeps the closed lines or closes the current line |
| `TextLayout.PackFrom` | src/activities/home/HomeActivity.cpp:203-238 | the loop never closes more than 3 lines, keeps the lines already closed, and stops early only at 3 lines |
| `TextLayout.PackKeepsOrder` | src/activities/home/HomeActivity.cpp:225-237 | closed lines and current line, joined by spaces, are always the consumed (trimmed) words in input order, each preceded by a space |
| `TextLayout.PackKeepsLeadingSpace` | src/activities/home/HomeActivity.cpp:236 | the first line always begins with a space |
| `TextLayout.Wrap` | src/activities/home/HomeActivity.cpp:203-243 | the title never has more than 3 lines |
| `TextLayout.WrapTitle` | src/activities/home/HomeActivity.cpp:197-243 | the wrapping loop, with its trims, computes Wrap, underflow included |
| `TextLayout.WrapBelowCapKeepsAllWords` | src/activities/home/HomeActivity.cpp:240-243 | when the words run out with at most two lines closed (the open line becoming the last, possibly third, line), the result is Ok and the lines joined by spaces are all the trimmed words in input order; hence every result of fewer than 3 lines keeps all words |
| `TextLayout.WrapEllipsisWhenWordsRemain` | src/activities/home/HomeActivity.cpp:204-215 | when the cap stops the loop with words left, there are 3 lines, the first two as packed and the third ending in "..." as the trimmed packed line plus "..." |
| `TextLayout.WrapDropsPendingLineAtCap` | src/activities/home/HomeActivity.cpp:241 | when the words run out at 3 closed lines, the non-empty current line is dropped and carries no "..." |
| `TextLayout.FirstLineStartsWithSpace` | src/activities/home/HomeActivity.cpp:236 | the first title line starts with a space |
| `TextLayout.LayoutTitle` | src/activities/home/HomeActivity.cpp:179-243 | the title layout is the wrap of the title's words |
| `TextLayout.BlankTitleHasNoLines` | src/activities/home/HomeActivity.cpp:241 | an empty or all-space title yields no lines |
| `Shapes.TruncDiv` | src/activities/home/HomeActivity.cpp:252 | C++ `int` division truncates toward zero: the remainder is smaller than the divisor and has the sign of the dividend |
| `CardGeometry.BookCard` | src/activities/home/HomeActivity.cpp:141-144 | the card is half the page in each direction, lies within the page width, and is centred (the right gap exceeds the left by at most one pixel) |
| `CardGeometry.Bookmark` | src/activities/home/HomeActivity.cpp:156-159 | the bookmark is card.width / 8 wide and card.height / 5 high (rounded down), ends 8 px inside the card's right edge, one pixel below its top, and lies within the card when the card is at least 10 px wide and 2 px high |
| `CardGeometry.NotchStrips` | src/activities/home/HomeActivity.cpp:165-175 | the loop draws min(height/2, ceil(width/2)) strips; strip i is row i from the bottom, inset by i on both sides, non-empty and inside the bookmark's lower half |
| `CardGeometry.MenuStartY` | src/activities/home/HomeActivity.cpp:286-291 | the menu starts at the smaller of 20 px below the card and the highest start that keeps the tiles clear of the legend |
| `CardGeometry.TilesClearLegend` | src/activities/home/HomeActivity.cpp:281-297 | the tiles span the page between the side margins, are 10 px apart so none overlap, and the third ends at least a margin above the bottom legend area |
| `ScreenComponents.FilledWidth` | src/ScreenComponents.cpp:34-38 | the fill is between 1 and 10 columns for every uint16 percentage, 10 exactly from 90 up, and percentage/10 + 1 below |
| `ScreenComponents.EmptyBatteryFillsOneColumn` | src/ScreenComponents.cpp:34-35 | a 0% battery fills one column |
| `ScreenComponents.FilledWidthMonotone` | src/ScreenComponents.cpp:35-38 | the fill never shrinks as the percentage grows |
| `ScreenComponents.DrawBattery` | src/ScreenComponents.cpp:14-40 | each of the 7 segments is given: the body's top (y = top+7), bottom (top+16), left line (x = left) and end (left+11), and the cap's stubs and right edge (left+12..left+14, rows top+9..top+14); all lie in the 15x10 box, and the text at left+20 lies right of every segment; the fill is FilledWidth columns by 8 rows, starting just inside the left and top lines and ending before the body end and just above the bottom line |
| `Home.HomeActivity.OnEnter` | src/activities/home/HomeActivity.cpp:19-57 | there is a book exactly when the path is non-empty and the file exists; the selection is reset to 0, a redraw is requested, and the selection invariant holds |
| `Home.HomeActivity.SetBookInfo` | src/activities/home/HomeActivity.cpp:27-51 | the title is DisplayTitle of the path; the author changes only to non-empty epub metadata |
| `Home.HomeActivity.Loop` | src/activities/home/HomeActivity.cpp:80-116 | confirm is checked first and returns the selected entry's action with nothing changed; otherwise previous (winning over next) or next moves the selection cyclically and requests a redraw; the selection stays in range |
| `Home.HomeActivity.Render` | src/activities/home/HomeActivity.cpp:131-321 | the pass fails exactly when a title or author trim underflows; otherwise it holds the card, the bookmark, every notch strip's rectangle, the title lines and trimmed author only with a book, with the title starting at the card top plus half the free height rounded toward zero (so the block is centred to within one pixel), the three tiles, and the battery; the one highlighted element is the one confirm fires |

## Left out

- The FreeRTOS rendering task and its mutex are not modelled: `taskTrampoline`, `displayTaskLoop`, the task creation in `onEnter` and the teardown in `onExit`. They exist for concurrency and scheduling. `updateRequired` is only set; the task that clears it is not modelled.
- Epub metadata loading is not modelled because it is a separate library. The metadata title and author are inputs of `OnEnter` ("" when absent).
- `APP_STATE.openEpubPath` and `SdMan.exists` are not modelled because they are global and filesystem state. The path and the existence result are inputs of `OnEnter`.
- Button polling and label mapping are not modelled. The buttons pressed and released in one poll are inputs of `Loop`.
- The `on...Open` callbacks are defined elsewhere. `Loop` returns the chosen action instead of calling them.
- Drawing is not modelled: the `GfxRenderer` calls, fill and invert flags, draw order, `clearScreen`, `drawButtonHints` and `displayBuffer`. `Render` returns the shapes and text of a pass as a value, and font metrics are abstract functions.
- `Home.HomeActivity.Render` leaves out three text positions and the fixed captions with their positions. The positions are the x positions of centred text, the tile label positions (HomeActivity.cpp:307-310) and the author line's y position (260). The captions are "Continue Reading", "No open book" and "Start reading below" (270-277). It keeps the title's starting y position.
- `battery.readPercentage()` and the `std::to_string` text are a hardware read and formatting. The percentage is an input of `DrawBattery`, and only the text position is modelled.
- What the firmware does after a failed resize is not modelled. `Render` returns `Underflow` and stops.
- Pixel arithmetic uses unbounded integers. The C++ `int` values are small pixel counts and are taken not to overflow.
- `Home.HomeActivity.SetBookInfo` builds the title in a local and stores it in `lastBookTitle` once. The C++ assigns and resizes the member in place, and nothing reads it in between.
- HomeActivity.h is not part of this model. The constructor's initial field values (no book, selection 0, no redraw, empty title and author) are assumed.
