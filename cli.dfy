/** The command-line front-end: single generation, batch generation from a
    list or a file, and the argument and prompt handling of `main`. */
module Cli {
  import opened Wrappers
  import opened Strings
  import opened Numerals
  import opened Filenames
  import opened Encoder

  const DefaultSaveDir: string := "qr_codes"

  /** Version 1 grown to fit, level H, 10 pixels per module, border 4. */
  const CliOptions: EncodeOptions := EncodeOptions(1, H, 10, 4)

  // ------------------------------------------------------ single generation

  /** The file name `generate_qr_code` writes: the given one, or
      `qrcode_<timestamp>.png` when there is none, forced to end in ".png".
      `timestamp` stands for the clock's `%Y%m%d_%H%M%S` text. */
  function OutputName(filename: Option<string>, timestamp: string): (r: string)
    ensures EndsWith(r, PngSuffix)
    ensures filename.None? ==> r == "qrcode_" + timestamp + PngSuffix
    ensures filename.Some? ==> r == EnsurePng(filename.value)
  {
    var name := if filename.None? then "qrcode_" + timestamp + PngSuffix else filename.value;
    EnsurePng(name)
  }

  /** `generate_qr_code`: the path written, or `None` for a raised exception. */
  function GenerateQrCode(url: string, filename: Option<string>, saveDir: string, timestamp: string, backend: Backend)
    : (r: Option<string>)
    ensures r.Some? <==> backend(url, CliOptions, PathJoin(saveDir, OutputName(filename, timestamp)))
    ensures r.Some? ==> r.value == PathJoin(saveDir, OutputName(filename, timestamp))
    ensures r.Some? ==> EndsWith(r.value, PngSuffix) && EndsWith(r.value, OutputName(filename, timestamp))
  {
    var filepath := PathJoin(saveDir, OutputName(filename, timestamp));
    EndsWithTrans(filepath, OutputName(filename, timestamp), PngSuffix);
    if backend(url, CliOptions, filepath) then Some(filepath) else None
  }

  // ------------------------------------------------------- batch generation

  /** `f"qrcode_{i}.png"` */
  function ItemName(i: nat): (r: string)
    ensures StartsWith(r, "qrcode_") && EndsWith(r, PngSuffix) && !StartsWith(r, "/")
    ensures |r| >= 12
  {
    var r := "qrcode_" + NatToString(i) + PngSuffix;
    assert r[0] == 'q';
    r
  }

  /** Between the prefix and the suffix of a batch name stands the decimal
      numeral of its counter, without a leading zero. */
  lemma ItemNameCounter(i: nat)
    ensures var r := ItemName(i);
            && AllDigits(r[7..|r| - 4]) && DigitsValue(r[7..|r| - 4]) == i
            && (|r| > 12 ==> r[7] != '0')
  {
    var r := ItemName(i);
    assert r[7..|r| - 4] == NatToString(i);
    NatToStringValue(i);
  }

  /** No two batch items share a file name, so none overwrites another. */
  lemma ItemNamesDistinct(i: nat, j: nat)
    requires i != j
    ensures ItemName(i) != ItemName(j)
  {
    ItemNameCounter(i);
    ItemNameCounter(j);
  }

  /** The path of the batch item counted `i` (from 1). */
  function ItemPath(saveDir: string, i: nat): string {
    PathJoin(saveDir, ItemName(i))
  }

  /** Distinct counters give distinct batch paths. */
  lemma ItemPathsDistinct(saveDir: string, i: nat, j: nat)
    requires i != j
    ensures ItemPath(saveDir, i) != ItemPath(saveDir, j)
  {
    ItemNamesDistinct(i, j);
    PathJoinInjective(saveDir, ItemName(i), ItemName(j));
  }

  /** What a loop over positions 0 .. n-1 collects when position `k` either
      yields `path(k)` (if `ok(k)`) or is skipped. */
  function Collect(n: nat, ok: nat -> bool, path: nat -> string): seq<string> {
    if n == 0 then [] else Collect(n - 1, ok, path) + (if ok(n - 1) then [path(n - 1)] else [])
  }

  /** The positions below `n` at which `ok` holds, in increasing order. */
  function Successes(n: nat, ok: nat -> bool): (r: seq<nat>)
    ensures forall m :: 0 <= m < |r| ==> r[m] < n && ok(r[m])
    ensures forall m1, m2 :: 0 <= m1 < m2 < |r| ==> r[m1] < r[m2]
    ensures forall k :: 0 <= k < n && ok(k) ==> k in r
  {
    if n == 0 then [] else Successes(n - 1, ok) + (if ok(n - 1) then [n - 1] else [])
  }

  /** What is collected is, in order, the paths of exactly the positions that
      succeed: a failure is skipped and does not stop later positions. */
  lemma {:induction false} CollectIsSuccesses(n: nat, ok: nat -> bool, path: nat -> string)
    ensures var paths, done := Collect(n, ok, path), Successes(n, ok);
            |paths| == |done| && forall m :: 0 <= m < |paths| ==> paths[m] == path(done[m])
  {
    if n > 0 {
      CollectIsSuccesses(n - 1, ok, path);
    }
  }

  lemma {:induction false} SortedBelowLength(s: seq<nat>, n: nat)
    requires forall m :: 0 <= m < |s| ==> s[m] < n
    requires forall m1, m2 :: 0 <= m1 < m2 < |s| ==> s[m1] < s[m2]
    ensures |s| <= n
    decreases n
  {
    if s != [] {
      var last := s[|s| - 1];
      var front := s[..|s| - 1];
      assert forall m :: 0 <= m < |front| ==> front[m] < last;
      SortedBelowLength(front, last);
    }
  }

  /** Whether generating the item at position `k` (from 0), under the name
      `qrcode_<k + 1>.png`, succeeds. */
  function ItemOk(items: seq<string>, saveDir: string, backend: Backend): nat -> bool {
    (k: nat) => k < |items| && backend(items[k], CliOptions, ItemPath(saveDir, k + 1))
  }

  /** The path of the item at position `k` (from 0). */
  function ItemAt(saveDir: string): nat -> string {
    (k: nat) => ItemPath(saveDir, k + 1)
  }

  /** The paths `batch_generate` returns for the first `n` items. */
  function BatchPaths(items: seq<string>, n: nat, saveDir: string, backend: Backend): seq<string> {
    Collect(n, ItemOk(items, saveDir, backend), ItemAt(saveDir))
  }

  /** Generating the item at position `k` under its batch name writes its
      batch path or fails. */
  lemma ItemResult(items: seq<string>, k: nat, saveDir: string, timestamp: string, backend: Backend)
    requires k < |items|
    ensures var path := ItemPath(saveDir, k + 1);
            GenerateQrCode(items[k], Some(ItemName(k + 1)), saveDir, timestamp, backend) ==
            if backend(items[k], CliOptions, path) then Some(path) else None
  {
    var name := ItemName(k + 1);
    assert OutputName(Some(name), timestamp) == name;
  }

  /** One more turn of the batch loop appends the path of the next item if
      it succeeds, and nothing if it fails. */
  lemma BatchPathsStep(items: seq<string>, i: nat, saveDir: string, backend: Backend)
    requires i < |items|
    ensures var path := ItemPath(saveDir, i + 1);
            BatchPaths(items, i + 1, saveDir, backend) ==
            BatchPaths(items, i, saveDir, backend) + (if backend(items[i], CliOptions, path) then [path] else [])
  {
    assert ItemOk(items, saveDir, backend)(i) == backend(items[i], CliOptions, ItemPath(saveDir, i + 1));
  }

  /** The batch result lists, in input order, the paths of exactly the items
      that succeeded, and is never longer than the input. */
  lemma BatchPathsAreSuccesses(items: seq<string>, saveDir: string, backend: Backend)
    ensures var paths, done := BatchPaths(items, |items|, saveDir, backend), Successes(|items|, ItemOk(items, saveDir, backend));
            && |paths| == |done| <= |items|
            && (forall m :: 0 <= m < |paths| ==> paths[m] == ItemPath(saveDir, done[m] + 1))
            && (forall k :: 0 <= k < |items| ==> (k in done <==> ItemOk(items, saveDir, backend)(k)))
  {
    var done := Successes(|items|, ItemOk(items, saveDir, backend));
    CollectIsSuccesses(|items|, ItemOk(items, saveDir, backend), ItemAt(saveDir));
    SortedBelowLength(done, |items|);
  }

  /** When distinct positions have distinct paths, what is collected has no
      repeats. */
  lemma CollectDistinct(n: nat, ok: nat -> bool, path: nat -> string)
    requires forall i: nat, j: nat :: i != j ==> path(i) != path(j)
    ensures var paths := Collect(n, ok, path);
            forall m1, m2 :: 0 <= m1 < m2 < |paths| ==> paths[m1] != paths[m2]
  {
    CollectIsSuccesses(n, ok, path);
  }

  /** The collected batch paths are pairwise different: no item's image
      overwrites another's. */
  lemma BatchPathsDistinct(items: seq<string>, saveDir: string, backend: Backend)
    ensures var paths := BatchPaths(items, |items|, saveDir, backend);
            forall m1, m2 :: 0 <= m1 < m2 < |paths| ==> paths[m1] != paths[m2]
  {
    ItemAtInjective(saveDir);
    CollectDistinct(|items|, ItemOk(items, saveDir, backend), ItemAt(saveDir));
    assert BatchPaths(items, |items|, saveDir, backend) == Collect(|items|, ItemOk(items, saveDir, backend), ItemAt(saveDir));
  }

  /** Distinct positions have distinct batch paths. */
  lemma ItemAtInjective(saveDir: string)
    ensures forall i: nat, j: nat :: i != j ==> ItemAt(saveDir)(i) != ItemAt(saveDir)(j)
  {
    forall i: nat, j: nat | i != j ensures ItemAt(saveDir)(i) != ItemAt(saveDir)(j) {
      ItemPathsDistinct(saveDir, i + 1, j + 1);
    }
  }

  /** What `batch_generate` is given: a list of URLs, or a string. */
  datatype BatchSource = UrlList(urls: seq<string>) | PathText(path: string)

  /** The characters at which reading a text file starts a new line. A "\r\n"
      pair yields an empty piece in between, which the filter drops. */
  const LineBreaks: set<char> := {'\n', '\r'}

  /** `[line.strip() for line in lines if line.strip()]` */
  function NonBlankStripped(lines: seq<string>): (r: seq<string>)
    ensures |r| <= |lines|
    ensures forall k :: 0 <= k < |r| ==> r[k] != [] && IsStripped(r[k])
  {
    if lines == [] then []
    else
      var front := NonBlankStripped(lines[..|lines| - 1]);
      var line := Strip(lines[|lines| - 1]);
      if line != [] then front + [line] else front
  }

  /** Whether the line at position `k` survives the filter. */
  function LineKept(lines: seq<string>): nat -> bool {
    (k: nat) => k < |lines| && Strip(lines[k]) != []
  }

  /** The stripped line at position `k`. */
  function LineAt(lines: seq<string>): nat -> string {
    (k: nat) => if k < |lines| then Strip(lines[k]) else ""
  }

  /** `Collect` depends only on the positions below `n`. */
  lemma {:induction false} CollectAgree(n: nat, ok1: nat -> bool, path1: nat -> string, ok2: nat -> bool, path2: nat -> string)
    requires forall k: nat :: k < n ==> ok1(k) == ok2(k) && path1(k) == path2(k)
    ensures Collect(n, ok1, path1) == Collect(n, ok2, path2)
  {
    if n > 0 {
      CollectAgree(n - 1, ok1, path1, ok2, path2);
    }
  }

  /** The filter is a loop over the lines that keeps the stripped line at
      every position where it is not blank. */
  lemma {:induction false} NonBlankStrippedIsCollect(lines: seq<string>)
    ensures NonBlankStripped(lines) == Collect(|lines|, LineKept(lines), LineAt(lines))
  {
    if lines != [] {
      var front := lines[..|lines| - 1];
      NonBlankStrippedIsCollect(front);
      LinesPrefixAgree(lines);
      CollectAgree(|front|, LineKept(front), LineAt(front), LineKept(lines), LineAt(lines));
      LineKeptAndAt(lines, |front|);
    }
  }

  lemma LinesPrefixAgree(lines: seq<string>)
    requires lines != []
    ensures var front := lines[..|lines| - 1];
            forall k: nat :: k < |front| ==>
              LineKept(front)(k) == LineKept(lines)(k) && LineAt(front)(k) == LineAt(lines)(k)
  {
  }

  lemma LineKeptAndAt(lines: seq<string>, k: nat)
    requires k < |lines|
    ensures LineKept(lines)(k) == (Strip(lines[k]) != [])
    ensures LineAt(lines)(k) == Strip(lines[k])
  {
  }

  /** The URLs read from a batch file are, in file order, the stripped form
      of exactly the lines that are not blank. */
  lemma NonBlankStrippedLines(lines: seq<string>)
    ensures var r, kept := NonBlankStripped(lines), Successes(|lines|, LineKept(lines));
            && |r| == |kept|
            && (forall m :: 0 <= m < |r| ==> kept[m] < |lines| && r[m] == Strip(lines[kept[m]]))
            && (forall k :: 0 <= k < |lines| ==> (k in kept <==> Strip(lines[k]) != []))
  {
    NonBlankStrippedIsCollect(lines);
    CollectIsSuccesses(|lines|, LineKept(lines), LineAt(lines));
  }

  /** Filtering an already filtered list changes nothing. */
  lemma {:induction false} NonBlankStrippedIdempotent(lines: seq<string>)
    ensures NonBlankStripped(NonBlankStripped(lines)) == NonBlankStripped(lines)
  {
    if lines != [] {
      var front := lines[..|lines| - 1];
      NonBlankStrippedIdempotent(front);
      var r := NonBlankStripped(lines);
      var rest := NonBlankStripped(front);
      if Strip(lines[|lines| - 1]) != [] {
        StripIdempotent(lines[|lines| - 1]);
        assert r[..|r| - 1] == rest;
      }
    }
  }

  /** The URLs of a batch file: its stripped, non-blank lines, in order. */
  function FileUrls(contents: string): (r: seq<string>)
    ensures |r| <= |Split(contents, LineBreaks)|
    ensures forall k :: 0 <= k < |r| ==> r[k] != [] && IsStripped(r[k])
  {
    NonBlankStripped(Split(contents, LineBreaks))
  }

  /** For a file written as lines separated by "\n", the URLs are exactly its
      stripped non-blank lines, in file order. */
  lemma FileUrlsOfLines(lines: seq<string>)
    requires |lines| >= 1
    requires forall k :: 0 <= k < |lines| ==> NoneIn(lines[k], LineBreaks)
    ensures FileUrls(Join("\n", lines)) == NonBlankStripped(lines)
  {
    SplitJoin(lines, '\n', LineBreaks);
  }

  /** The items `batch_generate` loops over: the list itself; the URLs of the
      file a string names; or, for a string that names no file, its single
      characters (Python iterates over the string). */
  function BatchItems(src: BatchSource, isFile: string -> bool, readFile: string -> string): (r: seq<string>)
    ensures src.UrlList? ==> r == src.urls
    ensures src.PathText? && isFile(src.path) ==> r == FileUrls(readFile(src.path))
    ensures src.PathText? && !isFile(src.path) ==>
              |r| == |src.path| && forall k :: 0 <= k < |r| ==> r[k] == [src.path[k]]
  {
    match src
    case UrlList(urls) => urls
    case PathText(path) =>
      if isFile(path) then FileUrls(readFile(path))
      else seq(|path|, k requires 0 <= k < |path| => [path[k]])
  }

  /** `batch_generate`: generates every item under the name `qrcode_<i>.png`,
      counting from 1, and collects the paths of those that succeed. */
  method BatchGenerate(src: BatchSource, saveDir: string, isFile: string -> bool, readFile: string -> string, backend: Backend)
    returns (filepaths: seq<string>)
    ensures var items := BatchItems(src, isFile, readFile);
            filepaths == BatchPaths(items, |items|, saveDir, backend)
  {
    var items := BatchItems(src, isFile, readFile);
    filepaths := [];
    var i := 0;
    while i < |items|
      invariant 0 <= i <= |items|
      invariant filepaths == BatchPaths(items, i, saveDir, backend)
    {
      filepaths := TryGenerateItem(items, i, saveDir, backend, filepaths);
      i := i + 1;
    }
  }

  /** One turn of the batch loop: generate the item at position `i` and
      append its path on success; a raised exception is reported and the
      list is left as it was. */
  method TryGenerateItem(items: seq<string>, i: nat, saveDir: string, backend: Backend, filepaths: seq<string>)
    returns (r: seq<string>)
    requires i < |items| && filepaths == BatchPaths(items, i, saveDir, backend)
    ensures r == BatchPaths(items, i + 1, saveDir, backend)
  {
    var filepath := GenerateQrCode(items[i], Some(ItemName(i + 1)), saveDir, "", backend);
    ItemResult(items, i, saveDir, "", backend);
    BatchPathsStep(items, i, saveDir, backend);
    r := filepaths;
    if filepath.Some? {
      r := r + [filepath.value];
    }
  }

  // ------------------------------------------------------------------ main

  /** `main`'s argument mode: the URL is `argv[1]`, the file name `argv[2]`
      if given and `None` otherwise; without arguments there is no request. */
  function ArgvRequest(argv: seq<string>): (r: Option<(string, Option<string>)>)
    ensures r.Some? <==> |argv| > 1
    ensures r.Some? ==> r.value.0 == argv[1] && (r.value.1.Some? <==> |argv| > 2)
    ensures r.Some? && |argv| > 2 ==> r.value.1 == Some(argv[2])
  {
    if |argv| > 1 then Some((argv[1], if |argv| > 2 then Some(argv[2]) else None)) else None
  }

  /** The prompted file name: blank means "use the timestamp". */
  function PromptedFilename(line: string): (r: Option<string>)
    ensures r.None? <==> AllSpace(line)
    ensures r.Some? ==> r.value == Strip(line) && r.value != []
  {
    StripEmptyIff(line);
    var name := Strip(line);
    if name != [] then Some(name) else None
  }

  /** The stripped lines before the first blank one (all of them if none is
      blank). */
  function UrlsBeforeBlank(lines: seq<string>): seq<string> {
    if lines == [] || AllSpace(lines[0]) then [] else [Strip(lines[0])] + UrlsBeforeBlank(lines[1..])
  }

  /** A list that matches the lines one by one up to a blank line is the list
      of stripped lines before the first blank one. */
  lemma {:induction false} UrlsBeforeBlankOf(lines: seq<string>, urls: seq<string>)
    requires |urls| < |lines| && AllSpace(lines[|urls|])
    requires forall k :: 0 <= k < |urls| ==> !AllSpace(lines[k]) && urls[k] == Strip(lines[k])
    ensures urls == UrlsBeforeBlank(lines)
  {
    if urls != [] {
      UrlsBeforeBlankOf(lines[1..], urls[1..]);
    }
  }

  /** The manual-entry loop's result: the URLs entered and the input after the
      blank line that ended them, or the end of the input (Python's
      `EOFError`) reached first. */
  datatype Entry = Entered(urls: seq<string>, rest: seq<string>) | InputEnded

  /** `while True: url = input().strip(); if not url: break; urls.append(url)` */
  method ReadManualUrls(lines: seq<string>) returns (r: Entry)
    ensures r.Entered? <==> exists k :: 0 <= k < |lines| && AllSpace(lines[k])
    ensures r.Entered? ==>
              var n := |r.urls|;
              && n < |lines| && AllSpace(lines[n]) && r.rest == lines[n + 1..]
              && forall k :: 0 <= k < n ==> !AllSpace(lines[k]) && r.urls[k] == Strip(lines[k]) && r.urls[k] != []
  {
    var urls: seq<string> := [];
    var i := 0;
    while true
      invariant 0 <= i <= |lines| && |urls| == i
      invariant forall k :: 0 <= k < i ==> !AllSpace(lines[k]) && urls[k] == Strip(lines[k]) && urls[k] != []
      decreases |lines| - i
    {
      if i == |lines| {
        return InputEnded;
      }
      var url := Strip(lines[i]);
      StripEmptyIff(lines[i]);
      if url == [] {
        return Entered(urls, lines[i + 1..]);
      }
      urls := urls + [url];
      i := i + 1;
    }
  }

  /** How a run of the program ends. */
  datatype Outcome =
    | Generated(path: string)        // one image written
    | Failed(exitStatus: int)        // one image failed; status 1 in argument mode
    | BatchDone(paths: seq<string>)  // a batch ran; the paths written
    | FileMissing                    // mode 2 with a path that is not a file
    | NoUrls                         // mode 3 with nothing entered
    | InvalidChoice                  // a menu choice other than 1, 2, 3
    | EndOfInput                     // standard input ran out at a prompt

  /** `main`, given the arguments, the lines of standard input, the clock's
      timestamp text and the outside world. */
  method Run(argv: seq<string>, stdin: seq<string>, timestamp: string,
             isFile: string -> bool, readFile: string -> string, backend: Backend)
    returns (outcome: Outcome)
    ensures |argv| > 1 ==>
              outcome == match GenerateQrCode(argv[1], ArgvRequest(argv).value.1, DefaultSaveDir, timestamp, backend)
                         case Some(path) => Generated(path)
                         case None => Failed(1)
    ensures |argv| <= 1 && stdin == [] ==> outcome == EndOfInput
    ensures |argv| <= 1 && 0 < |stdin| < 3 && Strip(stdin[0]) == "1" ==> outcome == EndOfInput
    ensures |argv| <= 1 && |stdin| == 1 && Strip(stdin[0]) == "2" ==> outcome == EndOfInput
    ensures |argv| <= 1 && |stdin| >= 3 && Strip(stdin[0]) == "1" ==>
              outcome == match GenerateQrCode(Strip(stdin[1]), PromptedFilename(stdin[2]), DefaultSaveDir, timestamp, backend)
                         case Some(path) => Generated(path)
                         case None => Failed(0)
    ensures |argv| <= 1 && |stdin| >= 2 && Strip(stdin[0]) == "2" ==>
              outcome == if isFile(Strip(stdin[1]))
                         then BatchDone(BatchPaths(FileUrls(readFile(Strip(stdin[1]))), |FileUrls(readFile(Strip(stdin[1])))|, DefaultSaveDir, backend))
                         else FileMissing
    ensures |argv| <= 1 && stdin != [] && Strip(stdin[0]) == "3" ==>
              && (outcome.BatchDone? || outcome == NoUrls || outcome == EndOfInput)
              && (outcome == EndOfInput <==> forall k :: 1 <= k < |stdin| ==> !AllSpace(stdin[k]))
              && (outcome == NoUrls <==> |stdin| > 1 && AllSpace(stdin[1]))
              && (outcome.BatchDone? ==>
                    var urls := UrlsBeforeBlank(stdin[1..]);
                    urls != [] && outcome.paths == BatchPaths(urls, |urls|, DefaultSaveDir, backend))
    ensures |argv| <= 1 && stdin != [] && Strip(stdin[0]) !in ["1", "2", "3"] ==> outcome == InvalidChoice
  {
    var request := ArgvRequest(argv);
    if request.Some? {
      var (url, filename) := request.value;
      var filepath := GenerateQrCode(url, filename, DefaultSaveDir, timestamp, backend);
      outcome := if filepath.Some? then Generated(filepath.value) else Failed(1);
      return;
    }
    if stdin == [] {
      return EndOfInput;
    }
    var choice := Strip(stdin[0]);
    if choice == "1" {
      if |stdin| < 3 {
        return EndOfInput;
      }
      var url := Strip(stdin[1]);
      var filename := PromptedFilename(stdin[2]);
      var filepath := GenerateQrCode(url, filename, DefaultSaveDir, timestamp, backend);
      outcome := if filepath.Some? then Generated(filepath.value) else Failed(0);
    } else if choice == "2" {
      if |stdin| < 2 {
        return EndOfInput;
      }
      var filePath := Strip(stdin[1]);
      if isFile(filePath) {
        var filepaths := BatchGenerate(PathText(filePath), DefaultSaveDir, isFile, readFile, backend);
        outcome := BatchDone(filepaths);
      } else {
        outcome := FileMissing;
      }
    } else if choice == "3" {
      var entry := ReadManualUrls(stdin[1..]);
      if entry.InputEnded? {
        return EndOfInput;
      }
      UrlsBeforeBlankOf(stdin[1..], entry.urls);
      if entry.urls != [] {
        var filepaths := BatchGenerate(UrlList(entry.urls), DefaultSaveDir, isFile, readFile, backend);
        outcome := BatchDone(filepaths);
      } else {
        outcome := NoUrls;
      }
    } else {
      outcome := InvalidChoice;
    }
  }
}
