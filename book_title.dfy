/** The title shown on the continue-reading card, derived from the path of the
    last opened book: the file name after the last '/', with the `.xtch` or
    `.xtc` extension cut off; for `.epub` files the book's own metadata title
    replaces it when there is one.  Each `char` stands for one byte of the
    UTF-8 path. */
module BookTitle {
  import opened Wrappers

  /** Position of the last occurrence of `c` in `s` (`std::string::find_last_of`). */
  function LastIndexOf(s: string, c: char): (r: Option<nat>)
    ensures r.Some? ==> r.value < |s| && s[r.value] == c
    ensures r.Some? ==> forall j :: r.value < j < |s| ==> s[j] != c
    ensures r.None? ==> forall j :: 0 <= j < |s| ==> s[j] != c
  {
    if s == [] then None
    else if s[|s| - 1] == c then Some(|s| - 1)
    else LastIndexOf(s[..|s| - 1], c)
  }

  /** The file name: everything after the last '/', or the whole path when it has none. */
  function Basename(path: string): (b: string)
    ensures '/' !in b
    ensures |b| <= |path| && b == path[|path| - |b|..]
    ensures '/' !in path ==> b == path
    ensures b != path ==> path[|path| - |b| - 1] == '/'
  {
    match LastIndexOf(path, '/')
    case None => path
    case Some(k) => path[k + 1..]
  }

  /** The last n characters of s, or "" when s is shorter than n. */
  function Tail(s: string, n: nat): (t: string)
    ensures |s| >= n ==> |t| == n && s == s[..|s| - n] + t
    ensures |s| < n ==> t == []
  {
    if |s| >= n then s[|s| - n..] else []
  }

  predicate EndsWith(s: string, suffix: string)
  {
    |suffix| <= |s| && s[|s| - |suffix|..] == suffix
  }

  /** Title kept on the card: `epubTitle` is the metadata title of an `.epub`
      book ("" when the metadata has none). */
  function DisplayTitle(path: string, epubTitle: string): (t: string)
    ensures var b := Basename(path);
      && (EndsWith(b, ".epub") ==> t == (if epubTitle != [] then epubTitle else b))
      && (EndsWith(b, ".xtch") ==> t + ".xtch" == b)
      && (EndsWith(b, ".xtc") ==> t + ".xtc" == b)
      && (!EndsWith(b, ".epub") && !EndsWith(b, ".xtch") && !EndsWith(b, ".xtc") ==> t == b)
    ensures !EndsWith(Basename(path), ".epub") ==> '/' !in t
  {
    var b := Basename(path);
    var ext4 := Tail(b, 4);
    var ext5 := Tail(b, 5);
    if ext5 == ".epub" then (if epubTitle != [] then epubTitle else b)
    else if ext5 == ".xtch" then b[..|b| - 5]
    else if ext4 == ".xtc" then b[..|b| - 4]
    else b
  }

  /** DisplayTitle, case by case on the extension tests that the home screen makes. */
  lemma DisplayTitleCases(path: string, epubTitle: string)
    ensures var b := Basename(path);
      && (Tail(b, 5) == ".epub" <==> EndsWith(b, ".epub"))
      && (Tail(b, 5) == ".epub" ==> DisplayTitle(path, epubTitle) == if epubTitle != [] then epubTitle else b)
      && (Tail(b, 5) != ".epub" && Tail(b, 5) == ".xtch" ==> DisplayTitle(path, epubTitle) == b[..|b| - 5])
      && (Tail(b, 5) != ".epub" && Tail(b, 5) != ".xtch" && Tail(b, 4) == ".xtc" ==> DisplayTitle(path, epubTitle) == b[..|b| - 4])
      && (Tail(b, 5) != ".epub" && Tail(b, 5) != ".xtch" && Tail(b, 4) != ".xtc" ==> DisplayTitle(path, epubTitle) == b)
  {
  }
}
