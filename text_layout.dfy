/** Layout of the book title and author on the continue-reading card: the
    title is split on spaces, packed greedily into at most three lines, and
    words, the last line and the author are shortened by dropping five
    characters and appending "..." while they are too wide.  Text widths come
    from an abstract measure; nothing is assumed about it.  Each `char` of a
    string stands for one byte of its UTF-8 encoding, so lengths and cuts
    count bytes, as `std::string` does. */
module TextLayout {
  import opened Wrappers

  /** Pixel width of a string in one font. */
  type Measure = string -> int

  /** The fitting constraints of the title: its font's measure and space
      width, and the widest line allowed. */
  datatype TextBox = TextBox(textWidth: Measure, spaceWidth: int, maxWidth: int)

  const Ellipsis: string := "..."
  /** Bytes dropped by one shortening step. */
  const TrimChunk: nat := 5
  /** The title is wrapped into at most this many lines. */
  const MaxTitleLines: nat := 3

  predicate EndsWithEllipsis(s: string)
  {
    |s| >= |Ellipsis| && s[|s| - |Ellipsis|..] == Ellipsis
  }

  // ---------------------------------------------------------------------
  // Splitting the title into words
  // ---------------------------------------------------------------------

  /** Length of the run of non-space characters at the start of s. */
  function RunLength(s: string): (n: nat)
    ensures n <= |s|
    ensures forall j :: 0 <= j < n ==> s[j] != ' '
    ensures n == |s| || s[n] == ' '
  {
    if s == [] || s[0] == ' ' then 0 else 1 + RunLength(s[1..])
  }

  /** The words of s: its maximal runs of non-space characters, in order. */
  function Words(s: string): seq<string>
    decreases |s|
  {
    if s == [] then []
    else if s[0] == ' ' then Words(s[1..])
    else
      var n := RunLength(s);
      [s[..n]] + Words(s[n..])
  }

  /** The title split on spaces, as the home screen does it: skip spaces, then
      take characters up to the next space as one word. */
  method SplitWords(title: string) returns (words: seq<string>)
    ensures words == Words(title)
  {
    words := [];
    var pos := 0;
    while pos < |title|
      invariant 0 <= pos <= |title|
      invariant words + Words(title[pos..]) == Words(title)
    {
      while pos < |title| && title[pos] == ' '
        invariant 0 <= pos <= |title|
        invariant words + Words(title[pos..]) == Words(title)
      {
        WordsSkipSpace(title, pos);
        pos := pos + 1;
      }
      if pos >= |title| {
        break;
      }
      var start := pos;
      while pos < |title| && title[pos] != ' '
        invariant start <= pos <= |title|
        invariant forall j :: start <= j < pos ==> title[j] != ' '
      {
        pos := pos + 1;
      }
      WordsAtRun(title, start, pos);
      words := words + [title[start..pos]];
    }
  }

  /** A space in front of the remaining text adds no word. */
  lemma WordsSkipSpace(s: string, pos: nat)
    requires pos < |s| && s[pos] == ' '
    ensures Words(s[pos..]) == Words(s[pos + 1..])
  {
    assert s[pos..][1..] == s[pos + 1..];
  }

  /** A maximal run of non-spaces at `start` is the next word. */
  lemma WordsAtRun(s: string, start: nat, pos: nat)
    requires start < pos <= |s|
    requires forall j :: start <= j < pos ==> s[j] != ' '
    requires pos == |s| || s[pos] == ' '
    ensures Words(s[start..]) == [s[start..pos]] + Words(s[pos..])
  {
    var t := s[start..];
    RunLengthIs(t, pos - start);
    assert t[..pos - start] == s[start..pos];
    assert t[pos - start..] == s[pos..];
  }

  /** RunLength is the only length whose prefix is space-free and that ends at a space or the end. */
  lemma RunLengthIs(s: string, n: nat)
    requires n <= |s|
    requires forall j :: 0 <= j < n ==> s[j] != ' '
    requires n == |s| || s[n] == ' '
    ensures RunLength(s) == n
  {
  }

  /** The non-space characters of s, in order. */
  function NonSpaces(s: string): string
  {
    if s == [] then [] else (if s[0] == ' ' then [] else [s[0]]) + NonSpaces(s[1..])
  }

  function Concat(ws: seq<string>): string
  {
    if ws == [] then [] else ws[0] + Concat(ws[1..])
  }

  lemma {:induction false} NonSpacesAppend(a: string, b: string)
    ensures NonSpaces(a + b) == NonSpaces(a) + NonSpaces(b)
  {
    if a == [] {
      assert a + b == b;
    } else {
      assert (a + b)[1..] == a[1..] + b;
      NonSpacesAppend(a[1..], b);
    }
  }

  lemma {:induction false} NonSpacesOfWord(a: string)
    requires forall j :: 0 <= j < |a| ==> a[j] != ' '
    ensures NonSpaces(a) == a
  {
    if a != [] {
      NonSpacesOfWord(a[1..]);
    }
  }

  /** Splitting yields non-empty words without spaces which, put back
      together, are exactly the title's non-space characters in order. */
  lemma {:induction false} WordsPartitionTitle(s: string)
    ensures forall k :: 0 <= k < |Words(s)| ==> Words(s)[k] != [] && ' ' !in Words(s)[k]
    ensures Concat(Words(s)) == NonSpaces(s)
    decreases |s|
  {
    if s == [] {
    } else if s[0] == ' ' {
      WordsPartitionTitle(s[1..]);
    } else {
      var n := RunLength(s);
      WordsPartitionTitle(s[n..]);
      var ws := Words(s);
      assert ws == [s[..n]] + Words(s[n..]);
      assert ws[1..] == Words(s[n..]);
      forall k | 0 <= k < |ws|
        ensures ws[k] != [] && ' ' !in ws[k]
      {
        if k > 0 {
          assert ws[k] == Words(s[n..])[k - 1];
        }
      }
      assert s == s[..n] + s[n..];
      NonSpacesAppend(s[..n], s[n..]);
      NonSpacesOfWord(s[..n]);
    }
  }

  /** A title that is empty or only spaces has no words. */
  lemma {:induction false} BlankTitleHasNoWords(s: string)
    ensures Words(s) == [] <==> forall j :: 0 <= j < |s| ==> s[j] == ' '
    decreases |s|
  {
    if s != [] {
      BlankTitleHasNoWords(s[1..]);
      if s[0] == ' ' {
        assert forall j :: 1 <= j < |s| ==> s[j] == s[1..][j - 1];
      }
    }
  }

  // ---------------------------------------------------------------------
  // Shortening with an ellipsis
  // ---------------------------------------------------------------------

  /** One shortening step: drop the last five characters and append "...". */
  function Shorten(s: string): (r: string)
    requires |s| >= TrimChunk
    ensures |r| == |s| - 2
    ensures EndsWithEllipsis(r) && r[..|r| - |Ellipsis|] == s[..|s| - TrimChunk]
  {
    s[..|s| - TrimChunk] + Ellipsis
  }

  /** A word after the per-word trim: shortened while it is wider than the
      line and longer than five characters. */
  function FitWord(width: Measure, maxWidth: int, w: string): (r: string)
    ensures width(r) <= maxWidth || |r| <= TrimChunk
    ensures width(w) <= maxWidth || |w| <= TrimChunk ==> r == w
    ensures |r| <= |w| && (|w| - |r|) % 2 == 0
    ensures r == w || (|r| >= |Ellipsis| + 1 && r == w[..|r| - |Ellipsis|] + Ellipsis)
    decreases |w|
  {
    if width(w) > maxWidth && |w| > TrimChunk then FitWord(width, maxWidth, Shorten(w)) else w
  }

  /** The per-word trim loop, shortening the word in place. */
  method TrimWord(width: Measure, maxWidth: int, word: string) returns (w: string)
    ensures w == FitWord(width, maxWidth, word)
  {
    w := word;
    var wordWidth := width(w);
    while wordWidth > maxWidth && |w| > TrimChunk
      invariant FitWord(width, maxWidth, w) == FitWord(width, maxWidth, word)
      invariant wordWidth == width(w)
      decreases |w|
    {
      w := w[..|w| - TrimChunk] + Ellipsis;
      wordWidth := width(w);
    }
  }

  /** A line (or the author) after the trim loop that runs while the text is
      non-empty and too wide.  That loop cuts five characters without checking
      the length: a cut at fewer than five characters is an underflow. */
  function TrimLine(width: Measure, maxWidth: int, s: string): (r: Result<string>)
    ensures r.Ok? ==> r.value == [] || width(r.value) <= maxWidth
    ensures r.Ok? ==> |r.value| <= |s| && (|s| - |r.value|) % 2 == 0
    ensures r.Ok? ==> r.value == s || (|r.value| >= |Ellipsis| && r.value == s[..|r.value| - |Ellipsis|] + Ellipsis)
    ensures s == [] || width(s) <= maxWidth ==> r == Ok(s)
    ensures s != [] && width(s) > maxWidth && |s| < TrimChunk ==> r == Underflow
    decreases |s|
  {
    if s != [] && width(s) > maxWidth then
      if |s| < TrimChunk then Underflow else TrimLine(width, maxWidth, Shorten(s))
    else Ok(s)
  }

  /** The line/author trim loop, shortening the text in place. */
  method TrimToWidth(width: Measure, maxWidth: int, text: string) returns (r: Result<string>)
    ensures r == TrimLine(width, maxWidth, text)
  {
    var s := text;
    while s != [] && width(s) > maxWidth
      invariant TrimLine(width, maxWidth, s) == TrimLine(width, maxWidth, text)
      decreases |s|
    {
      if |s| < TrimChunk {
        return Underflow;
      }
      s := s[..|s| - TrimChunk] + Ellipsis;
    }
    return Ok(s);
  }

  /** The trim cannot underflow when every non-empty text shorter than five
      characters fits: every shortening step then starts from at least five. */
  lemma {:induction false} TrimLineSafeWhenShortTextFits(width: Measure, maxWidth: int, s: string)
    requires forall t: string :: 0 < |t| < TrimChunk ==> width(t) <= maxWidth
    ensures TrimLine(width, maxWidth, s).Ok?
    decreases |s|
  {
    if s != [] && width(s) > maxWidth {
      TrimLineSafeWhenShortTextFits(width, maxWidth, Shorten(s));
    }
  }

  /** The converse of the safety condition: an underflow happens only at a
      non-empty text shorter than five characters that is too wide, and that
      text is either the input itself or a shortened one ending in "...". */
  lemma {:induction false} TrimLineUnderflowWitness(width: Measure, maxWidth: int, s: string)
    ensures TrimLine(width, maxWidth, s).Underflow? ==>
              exists t: string :: 0 < |t| < TrimChunk && width(t) > maxWidth && (t == s || EndsWithEllipsis(t))
    decreases |s|
  {
    if s != [] && width(s) > maxWidth {
      if |s| < TrimChunk {
        assert 0 < |s| < TrimChunk && width(s) > maxWidth;
      } else {
        var u := Shorten(s);
        TrimLineUnderflowWitness(width, maxWidth, u);
        if TrimLine(width, maxWidth, u).Underflow? {
          var t: string :| 0 < |t| < TrimChunk && width(t) > maxWidth && (t == u || EndsWithEllipsis(t));
          assert EndsWithEllipsis(u);
          assert EndsWithEllipsis(t);
        }
      }
    }
  }

  /** A text ending in "..." still ends in "..." after the trim. */
  lemma TrimLineKeepsEllipsis(width: Measure, maxWidth: int, s: string)
    requires EndsWithEllipsis(s)
    ensures TrimLine(width, maxWidth, s).Ok? ==> EndsWithEllipsis(TrimLine(width, maxWidth, s).value)
  {
  }

  // ---------------------------------------------------------------------
  // Greedy wrapping, at most three lines
  // ---------------------------------------------------------------------

  /** The wrapping loop's state: lines closed so far, the line being built,
      and how many words have been consumed. */
  datatype Packing = Packing(lines: seq<string>, current: string, consumed: nat)

  /** The width the line would have with the word appended, as the loop
      estimates it: a space is counted only when the line's width is positive. */
  function ExtendedWidth(b: TextBox, current: string, wordWidth: int): int
  {
    var w := b.textWidth(current);
    (if w > 0 then w + b.spaceWidth else w) + wordWidth
  }

  /** One iteration below the line cap: trim the word, then either close the
      current line and start a new one with the word, or append " " and the
      word to the current line. */
  function Place(b: TextBox, p: Packing, word: string): (q: Packing)
    ensures q.consumed == p.consumed + 1
    ensures q.lines == p.lines || q.lines == p.lines + [p.current]
  {
    var w := FitWord(b.textWidth, b.maxWidth, word);
    if ExtendedWidth(b, p.current, b.textWidth(w)) > b.maxWidth && p.current != [] then
      Packing(p.lines + [p.current], w, p.consumed + 1)
    else
      Packing(p.lines, p.current + " " + w, p.consumed + 1)
  }

  /** The words after the per-word trim. */
  function Fitted(b: TextBox, words: seq<string>): (fs: seq<string>)
    ensures |fs| == |words|
    ensures forall i :: 0 <= i < |words| ==> fs[i] == FitWord(b.textWidth, b.maxWidth, words[i])
  {
    if words == [] then [] else [FitWord(b.textWidth, b.maxWidth, words[0])] + Fitted(b, words[1..])
  }

  /** The words with one space before each: " w0 w1 ... wk". */
  function Spaced(ws: seq<string>): string
  {
    if ws == [] then [] else Spaced(ws[..|ws| - 1]) + " " + ws[|ws| - 1]
  }

  /** Lines joined with single spaces. */
  function JoinLines(ls: seq<string>): string
  {
    if ls == [] then []
    else if |ls| == 1 then ls[0]
    else JoinLines(ls[..|ls| - 1]) + " " + ls[|ls| - 1]
  }

  /** The loop's invariant on word order: the closed lines and the current line,
      joined by spaces, are the consumed (trimmed) words, each preceded by a space. */
  ghost predicate InOrder(b: TextBox, words: seq<string>, p: Packing)
    requires p.consumed <= |words|
  {
    JoinLines(p.lines + [p.current]) == Spaced(Fitted(b, words)[..p.consumed])
  }

  /** The loop's invariant on the leading space: the first line begins with
      the space that was appended before the first word. */
  ghost predicate LeadingSpace(p: Packing)
  {
    (p.lines != [] ==> p.lines[0] != [] && p.lines[0][0] == ' ')
    && (p.lines == [] && p.current != [] ==> p.current[0] == ' ')
  }

  predicate NoEmptyWord(words: seq<string>)
  {
    forall i :: 0 <= i < |words| ==> words[i] != []
  }

  /** The current line is empty only before the first word is placed. */
  predicate Untouched(p: Packing)
  {
    p.current == [] ==> p.consumed == 0 && p.lines == []
  }

  lemma SpacedSnoc(ws: seq<string>, k: nat)
    requires k < |ws|
    ensures Spaced(ws[..k + 1]) == Spaced(ws[..k]) + " " + ws[k]
  {
    assert ws[..k + 1][..k] == ws[..k];
  }

  lemma JoinLinesSnoc(ls: seq<string>, x: string)
    requires ls != []
    ensures JoinLines(ls + [x]) == JoinLines(ls) + " " + x
  {
    assert (ls + [x])[..|ls|] == ls;
  }

  lemma JoinLinesExtendLast(ls: seq<string>, cur: string, w: string)
    ensures JoinLines(ls + [cur + " " + w]) == JoinLines(ls + [cur]) + " " + w
  {
    if ls != [] {
      JoinLinesSnoc(ls, cur + " " + w);
      JoinLinesSnoc(ls, cur);
    } else {
      assert ls + [cur] == [cur];
      assert ls + [cur + " " + w] == [cur + " " + w];
    }
  }

  lemma PlaceKeepsOrder(b: TextBox, words: seq<string>, p: Packing)
    requires p.consumed < |words|
    ensures InOrder(b, words, p) ==> InOrder(b, words, Place(b, p, words[p.consumed]))
  {
    if !InOrder(b, words, p) {
      return;
    }
    var fs := Fitted(b, words);
    var w := FitWord(b.textWidth, b.maxWidth, words[p.consumed]);
    assert fs[p.consumed] == w;
    var q := Place(b, p, words[p.consumed]);
    var k := p.consumed;
    assert JoinLines(p.lines + [p.current]) == Spaced(fs[..k]);
    SpacedSnoc(fs, k);
    assert Spaced(fs[..k + 1]) == Spaced(fs[..k]) + " " + w;
    if ExtendedWidth(b, p.current, b.textWidth(w)) > b.maxWidth && p.current != [] {
      assert q == Packing(p.lines + [p.current], w, k + 1);
      JoinLinesSnoc(p.lines + [p.current], w);
      assert q.lines + [q.current] == p.lines + [p.current] + [w];
    } else {
      assert q == Packing(p.lines, p.current + " " + w, k + 1);
      JoinLinesExtendLast(p.lines, p.current, w);
    }
  }

  /** The wrapping loop from state p: it stops at the line cap or when the
      words run out. */
  function PackFrom(b: TextBox, words: seq<string>, p: Packing): (q: Packing)
    requires p.consumed <= |words| && |p.lines| <= MaxTitleLines
    ensures p.consumed <= q.consumed <= |words| && |q.lines| <= MaxTitleLines
    ensures q.consumed < |words| ==> |q.lines| == MaxTitleLines
    ensures |p.lines| <= |q.lines| && q.lines[..|p.lines|] == p.lines
    decreases |words| - p.consumed
  {
    if p.consumed == |words| || |p.lines| >= MaxTitleLines then p
    else PackFrom(b, words, Place(b, p, words[p.consumed]))
  }

  /** One turn of the loop: below the cap and with words left, packing from p
      is packing from p with the next word placed. */
  lemma PackFromStep(b: TextBox, words: seq<string>, p: Packing)
    requires p.consumed < |words| && |p.lines| < MaxTitleLines
    ensures PackFrom(b, words, p) == PackFrom(b, words, Place(b, p, words[p.consumed]))
  {
  }

  /** Packing keeps the consumed words in input order. */
  lemma {:induction false} PackKeepsOrder(b: TextBox, words: seq<string>, p: Packing)
    requires p.consumed <= |words| && |p.lines| <= MaxTitleLines
    requires InOrder(b, words, p)
    ensures InOrder(b, words, PackFrom(b, words, p))
    decreases |words| - p.consumed
  {
    if p.consumed < |words| && |p.lines| < MaxTitleLines {
      PlaceKeepsOrder(b, words, p);
      PackKeepsOrder(b, words, Place(b, p, words[p.consumed]));
    }
  }

  /** Packing keeps the leading space of the first line. */
  lemma {:induction false} PackKeepsLeadingSpace(b: TextBox, words: seq<string>, p: Packing)
    requires p.consumed <= |words| && |p.lines| <= MaxTitleLines
    requires LeadingSpace(p)
    ensures LeadingSpace(PackFrom(b, words, p))
    decreases |words| - p.consumed
  {
    if p.consumed < |words| && |p.lines| < MaxTitleLines {
      PackKeepsLeadingSpace(b, words, Place(b, p, words[p.consumed]));
    }
  }

  /** With non-empty words, the current line is empty only before the first word. */
  lemma {:induction false} PackKeepsUntouched(b: TextBox, words: seq<string>, p: Packing)
    requires p.consumed <= |words| && |p.lines| <= MaxTitleLines
    requires NoEmptyWord(words) && Untouched(p)
    ensures Untouched(PackFrom(b, words, p))
    decreases |words| - p.consumed
  {
    if p.consumed < |words| && |p.lines| < MaxTitleLines {
      PackKeepsUntouched(b, words, Place(b, p, words[p.consumed]));
    }
  }

  function Start(): Packing
  {
    Packing([], [], 0)
  }

  /** The title lines: pack the words; if the cap stopped the packing while
      words remain, append "..." to the last line and trim that line; if the
      words ran out below the cap, close the current line. */
  function Wrap(b: TextBox, words: seq<string>): (r: Result<seq<string>>)
    ensures r.Ok? ==> |r.value| <= MaxTitleLines
  {
    var p := PackFrom(b, words, Start());
    if p.consumed < |words| then
      match TrimLine(b.textWidth, b.maxWidth, p.lines[|p.lines| - 1] + Ellipsis)
      case Ok(last) => Ok(p.lines[..|p.lines| - 1] + [last])
      case Underflow => Underflow
    else if p.current != [] && |p.lines| < MaxTitleLines then Ok(p.lines + [p.current])
    else Ok(p.lines)
  }

  /** The wrapping loop of the home screen: for each word, stop at the line
      cap (ellipsis and trim on the last line), otherwise trim the word and
      either start a new line with it or append it after a space. */
  method WrapTitle(b: TextBox, words: seq<string>) returns (r: Result<seq<string>>)
    ensures r == Wrap(b, words)
  {
    var lines: seq<string> := [];
    var currentLine: string := [];
    var i := 0;
    while i < |words|
      invariant 0 <= i <= |words| && |lines| <= MaxTitleLines
      invariant PackFrom(b, words, Packing(lines, currentLine, i)) == PackFrom(b, words, Start())
    {
      if |lines| >= MaxTitleLines {
        var last := TrimToWidth(b.textWidth, b.maxWidth, lines[|lines| - 1] + Ellipsis);
        if last.Underflow? {
          return Underflow;
        }
        lines := lines[..|lines| - 1] + [last.value];
        return Ok(lines);
      }
      ghost var before := Packing(lines, currentLine, i);
      PackFromStep(b, words, before);
      var word := TrimWord(b.textWidth, b.maxWidth, words[i]);
      var wordWidth := b.textWidth(word);
      var newLineWidth := b.textWidth(currentLine);
      if newLineWidth > 0 {
        newLineWidth := newLineWidth + b.spaceWidth;
      }
      newLineWidth := newLineWidth + wordWidth;
      if newLineWidth > b.maxWidth && currentLine != [] {
        lines := lines + [currentLine];
        currentLine := word;
      } else {
        currentLine := currentLine + " " + word;
      }
      i := i + 1;
      assert Packing(lines, currentLine, i) == Place(b, before, words[before.consumed]);
    }
    if currentLine != [] && |lines| < MaxTitleLines {
      lines := lines + [currentLine];
    }
    return Ok(lines);
  }

  /** When the words run out before the line cap is reached (at most two
      lines closed, the current line still open), nothing is lost: the lines,
      joined by spaces, are all the (trimmed) words in input order, the first
      one preceded by the leading space that the first append adds.  This
      includes the case where the current line becomes the third line; in
      particular every result of fewer than three lines keeps all words. */
  lemma WrapBelowCapKeepsAllWords(b: TextBox, words: seq<string>)
    requires NoEmptyWord(words)
    ensures var p := PackFrom(b, words, Start());
      p.consumed == |words| && |p.lines| < MaxTitleLines ==>
        Wrap(b, words).Ok? && JoinLines(Wrap(b, words).value) == Spaced(Fitted(b, words))
    ensures Wrap(b, words).Ok? && |Wrap(b, words).value| < MaxTitleLines ==>
              JoinLines(Wrap(b, words).value) == Spaced(Fitted(b, words))
  {
    var p := PackFrom(b, words, Start());
    PackKeepsOrder(b, words, Start());
    PackKeepsUntouched(b, words, Start());
    if p.consumed == |words| {
      assert Fitted(b, words)[..p.consumed] == Fitted(b, words);
    }
  }

  /** When the cap stops the packing while words remain, the result has three
      lines: the first two as packed, the third packed line with "..." appended
      and then trimmed, so it still ends with "...".  The packed lines and the
      current line hold the consumed words in input order. */
  lemma WrapEllipsisWhenWordsRemain(b: TextBox, words: seq<string>)
    ensures var p := PackFrom(b, words, Start());
      p.consumed < |words| && Wrap(b, words).Ok? ==>
        var ls := Wrap(b, words).value;
        && |ls| == MaxTitleLines
        && ls[..2] == p.lines[..2]
        && EndsWithEllipsis(ls[2])
        && (ls[2] == p.lines[2] + Ellipsis
            || ls[2] == (p.lines[2] + Ellipsis)[..|ls[2]| - |Ellipsis|] + Ellipsis)
        && JoinLines(p.lines + [p.current]) == Spaced(Fitted(b, words)[..p.consumed])
  {
    var p := PackFrom(b, words, Start());
    PackKeepsOrder(b, words, Start());
    if p.consumed < |words| {
      TrimLineKeepsEllipsis(b.textWidth, b.maxWidth, p.lines[2] + Ellipsis);
    }
  }

  /** When the third line is closed by the last word, the line holding that
      word is dropped and no "..." marks the loss. */
  lemma WrapDropsPendingLineAtCap(b: TextBox, words: seq<string>)
    requires NoEmptyWord(words)
    ensures var p := PackFrom(b, words, Start());
      p.consumed == |words| && |p.lines| == MaxTitleLines ==>
        && Wrap(b, words) == Ok(p.lines)
        && p.current != []
        && JoinLines(p.lines) + " " + p.current == Spaced(Fitted(b, words))
  {
    var p := PackFrom(b, words, Start());
    PackKeepsOrder(b, words, Start());
    PackKeepsUntouched(b, words, Start());
    if p.consumed == |words| && |p.lines| == MaxTitleLines {
      assert Fitted(b, words)[..p.consumed] == Fitted(b, words);
      JoinLinesSnoc(p.lines, p.current);
    }
  }

  /** The first title line starts with a space: the first word is appended to
      the empty line after a " ". */
  lemma FirstLineStartsWithSpace(b: TextBox, words: seq<string>)
    ensures Wrap(b, words).Ok? && Wrap(b, words).value != [] ==>
              Wrap(b, words).value[0] != [] && Wrap(b, words).value[0][0] == ' '
  {
    PackKeepsLeadingSpace(b, words, Start());
  }

  /** The title layout: split, then wrap. */
  method LayoutTitle(b: TextBox, title: string) returns (r: Result<seq<string>>)
    ensures r == Wrap(b, Words(title))
  {
    var words := SplitWords(title);
    r := WrapTitle(b, words);
  }

  /** An empty or all-space title has no words and therefore no lines. */
  lemma BlankTitleHasNoLines(b: TextBox, title: string)
    requires forall j :: 0 <= j < |title| ==> title[j] == ' '
    ensures Wrap(b, Words(title)) == Ok([])
  {
    BlankTitleHasNoWords(title);
  }

  /** The per-word trim stops at five characters, so a trimmed word can still
      be wider than the line: at 10 pixels per character and a 20-pixel line,
      "abcdefg" becomes "ab...", 50 pixels wide. */
  lemma TrimmedWordCanOverflow()
    ensures var width := (s: string) => 10 * |s|;
      FitWord(width, 20, "abcdefg") == "ab..." && width("ab...") > 20
  {
    var width := (s: string) => 10 * |s|;
    assert Shorten("abcdefg") == "ab...";
    assert FitWord(width, 20, "ab...") == "ab...";
  }

  /** The line trim underflows when "..." alone is still too wide: at 10
      pixels per character and a 20-pixel line, "abcd..." shortens to "ab...",
      then to "...", and the next cut starts from three characters. */
  lemma LineTrimCanUnderflow()
    ensures TrimLine((s: string) => 10 * |s|, 20, "abcd...") == Underflow
  {
    var width := (s: string) => 10 * |s|;
    assert Shorten("abcd...") == "ab...";
    assert Shorten("ab...") == "...";
    assert TrimLine(width, 20, "...") == Underflow;
    assert TrimLine(width, 20, "ab...") == Underflow;
  }
}
