/** filereader/pdf_reader.go around the markup cleaner: paragraph grouping
    of extracted text, the walk over extracted files, and the assembly of
    the rows `ReadFromReader` returns. Everything pdfcpu and the operating
    system do is an input: whether each step succeeded, the directory
    listings with each file's content, the raw text and the metadata. */
module PdfReader {

  import opened Wrappers
  import opened PdfMarkup
  import opened FileErrors
  import FileInterface

  type Row = seq<string>

  // ---------------------------------------------------------------------
  // strings.Split(text, "\n")
  // ---------------------------------------------------------------------

  /** The inverse of `Split`: the lines joined back with newlines. */
  function JoinLines(lines: seq<string>): string
    requires |lines| >= 1
    decreases |lines|
  {
    if |lines| == 1 then lines[0] else lines[0] + "\n" + JoinLines(lines[1..])
  }

  /** `strings.Split(s, "\n")`: the pieces between newlines, one more than
      there are newlines, so a text without one is a single line. */
  function Split(s: string): (lines: seq<string>)
    ensures |lines| >= 1
    ensures forall k :: 0 <= k < |lines| ==> '\n' !in lines[k]
    ensures '\n' !in s ==> lines == [s]
    ensures JoinLines(lines) == s
    decreases |s|
  {
    if |s| == 0 then [""]
    else if s[0] == '\n' then
      var rest := Split(s[1..]);
      assert s == "" + "\n" + s[1..];
      [""] + rest
    else
      var rest := Split(s[1..]);
      var lines := [[s[0]] + rest[0]] + rest[1..];
      JoinFirst(s[0], rest);
      assert s == [s[0]] + s[1..];
      lines
  }

  /** Putting a character in front of the first line puts it in front of
      the joined text. */
  lemma JoinFirst(c: char, rest: seq<string>)
    requires |rest| >= 1
    ensures JoinLines([[c] + rest[0]] + rest[1..]) == [c] + JoinLines(rest)
  {
    if |rest| > 1 {
      JoinFirstOfMany(c, rest);
    }
  }

  lemma JoinFirstOfMany(c: char, rest: seq<string>)
    requires |rest| > 1
    ensures JoinLines([[c] + rest[0]] + rest[1..]) == [c] + JoinLines(rest)
  {
    var lines := [[c] + rest[0]] + rest[1..];
    assert lines[1..] == rest[1..];
    var tail := JoinLines(rest[1..]);
    var x := [c] + rest[0];
    assert lines[0] == x;
    calc {
      JoinLines(lines);
      x + "\n" + tail;
      [c] + (rest[0] + "\n" + tail);
      [c] + JoinLines(rest);
    }
  }

  // ---------------------------------------------------------------------
  // Paragraph grouping of processExtractedText
  // ---------------------------------------------------------------------

  /** No white space at either end, as after `strings.TrimSpace`. */
  predicate Trimmed(s: string)
  {
    s == "" || (!IsUnicodeSpace(s[0]) && !IsUnicodeSpace(s[|s| - 1]))
  }

  /** Emitting the paragraph being built as a one-field row, if it has any
      text. */
  function Flush(cur: string): seq<Row>
  {
    if cur == "" then [] else [[cur]]
  }

  /** Adding a non-blank line to the paragraph: one space between lines. */
  function Extend(cur: string, line: string): string
  {
    if cur == "" then line else cur + " " + line
  }

  /** Each line as the loop sees it, after `strings.TrimSpace`. */
  function TrimLines(lines: seq<string>): (r: seq<string>)
    ensures |r| == |lines|
  {
    seq(|lines|, k requires 0 <= k < |lines| => TrimSpace(lines[k]))
  }

  /** The rows the loop emits from the trimmed `lines` when `cur` holds the
      text of the paragraph built so far: consecutive non-blank lines are
      joined, a blank line closes the paragraph, and the end of the text
      closes the last one. */
  function Paragraphs(lines: seq<string>, cur: string): seq<Row>
    decreases |lines|
  {
    if |lines| == 0 then Flush(cur)
    else if lines[0] == "" then Flush(cur) + Paragraphs(lines[1..], "")
    else Paragraphs(lines[1..], Extend(cur, lines[0]))
  }

  /** Every row holds one paragraph, non-empty and trimmed. */
  lemma {:induction false} ParagraphsTrimmed(lines: seq<string>, cur: string)
    requires forall k :: 0 <= k < |lines| ==> Trimmed(lines[k])
    requires Trimmed(cur)
    ensures forall row :: row in Paragraphs(lines, cur) ==> |row| == 1 && row[0] != "" && Trimmed(row[0])
    decreases |lines|
  {
    if |lines| > 0 {
      var line := lines[0];
      assert Trimmed(line);
      if line == "" {
        ParagraphsTrimmed(lines[1..], "");
      } else {
        var next := Extend(cur, line);
        assert Trimmed(next) by {
          if cur != "" {
            assert next[0] == cur[0];
            assert next[|next| - 1] == line[|line| - 1];
          }
        }
        ParagraphsTrimmed(lines[1..], next);
      }
    }
  }

  /** The lines the loop sees are all trimmed. */
  lemma TrimLinesTrimmed(lines: seq<string>)
    ensures forall k :: 0 <= k < |lines| ==> Trimmed(TrimLines(lines)[k])
  {
  }

  /** What `processExtractedText` appends for one piece of extracted text. */
  function ProcessRows(data: string): seq<Row>
  {
    Paragraphs(TrimLines(Split(CleanPdfMarkup(data))), "")
  }

  /** The rows one piece of cleaned text stands for: a single-field row
      holding it, unless it is empty. */
  function CleanedRow(data: string): seq<Row>
  {
    var c := CleanPdfMarkup(data);
    if c == "" then [] else [[c]]
  }

  /** Cleaning leaves no newline, so the text is one line, and that line is
      already trimmed: a call appends at most one row, holding exactly the
      cleaned text. */
  lemma ProcessRowsAtMostOne(data: string)
    ensures ProcessRows(data) == CleanedRow(data)
  {
    var c := CleanPdfMarkup(data);
    assert Split(c) == [c];
    TrimSpaceIdempotent(c);
    assert TrimLines([c]) == [c];
    assert [c][1..] == [];
    if c == "" {
      assert Paragraphs([c], "") == Flush("") + Paragraphs([], "");
    } else {
      assert Paragraphs([c], "") == Paragraphs([], c) == [[c]];
    }
  }

  /** One step of the paragraph loop over `lines[i..]`. */
  lemma ParagraphsStep(lines: seq<string>, i: int, cur: string)
    requires 0 <= i < |lines|
    ensures Paragraphs(lines[i..], cur) ==
      if lines[i] == "" then Flush(cur) + Paragraphs(lines[i + 1..], "")
      else Paragraphs(lines[i + 1..], Extend(cur, lines[i]))
  {
    var rest := lines[i..];
    assert rest[0] == lines[i] && rest[1..] == lines[i + 1..];
  }

  /** `processExtractedText`: appends the rows of the paragraphs of the
      cleaned text to `result` and leaves the earlier rows as they were. */
  method ProcessExtractedText(data: string, result: seq<Row>) returns (out: seq<Row>)
    ensures out == result + ProcessRows(data)
    ensures out[..|result|] == result
  {
    var text := CleanPdfMarkup(data);
    var lines := Split(text);
    out := AppendParagraphs(lines, result);
  }

  /** One turn of the paragraph loop keeps the rows still to come equal to
      what the rest of the lines give. */
  lemma ParagraphsLoopStep(trimmed: seq<string>, i: int, cur: string, out: seq<Row>)
    requires 0 <= i < |trimmed|
    ensures var line := trimmed[i];
      if line == "" then
        (if cur != "" then out + [[cur]] else out) + Paragraphs(trimmed[i + 1..], "") == out + Paragraphs(trimmed[i..], cur)
      else
        out + Paragraphs(trimmed[i + 1..], Extend(cur, line)) == out + Paragraphs(trimmed[i..], cur)
  {
    ParagraphsStep(trimmed, i, cur);
    if trimmed[i] == "" {
      var rest := Paragraphs(trimmed[i + 1..], "");
      calc {
        (out + Flush(cur)) + rest;
        out + (Flush(cur) + rest);
      }
    }
  }

  /** The loop of `processExtractedText` over the lines of the cleaned text:
      trimmed non-blank lines accumulate in `cur`, a blank line emits it. */
  method AppendParagraphs(lines: seq<string>, result: seq<Row>) returns (out: seq<Row>)
    ensures out == result + Paragraphs(TrimLines(lines), "")
  {
    ghost var trimmed := TrimLines(lines);
    ghost var goal := result + Paragraphs(trimmed, "");
    assert trimmed[0..] == trimmed;
    var cur := "";
    out := result;
    for i := 0 to |lines|
      invariant out + Paragraphs(trimmed[i..], cur) == goal
    {
      ghost var cur0 := cur;
      var line := TrimSpace(lines[i]);
      assert line == trimmed[i];
      ParagraphsLoopStep(trimmed, i, cur, out);
      if line == "" {
        if cur != "" {
          out := out + [[cur]];
          cur := "";
        }
      } else {
        if cur != "" {
          cur := cur + " ";
        }
        cur := cur + line;
        assert cur == Extend(cur0, line);
      }
    }
    assert trimmed[|lines|..] == [];
    if cur != "" {
      out := out + [[cur]];
    }
  }

  // ---------------------------------------------------------------------
  // extractTextFromFiles
  // ---------------------------------------------------------------------

  /** An entry of the extraction directory; `content` is what
      `os.ReadFile` returned for it, `None` when reading failed. */
  datatype DirEntry = DirEntry(name: string, isDir: bool, content: Option<string>)

  predicate HasSuffix(s: string, suffix: string)
  {
    |suffix| <= |s| && s[|s| - |suffix|..] == suffix
  }

  /** Only regular entries named `*.txt` or `*.content` are read. */
  predicate Selected(e: DirEntry)
  {
    !e.isDir && (HasSuffix(e.name, ".txt") || HasSuffix(e.name, ".content"))
  }

  function EntryRows(e: DirEntry): seq<Row>
  {
    if Selected(e) && e.content.Some? then ProcessRows(e.content.value) else []
  }

  /** `f` applied to each element, the results concatenated in order. */
  function FlatMap<T, U>(f: T -> seq<U>, xs: seq<T>): seq<U>
    decreases |xs|
  {
    if |xs| == 0 then [] else FlatMap(f, xs[..|xs| - 1]) + f(xs[|xs| - 1])
  }

  lemma {:induction false} FlatMapAppend<T, U>(f: T -> seq<U>, a: seq<T>, b: seq<T>)
    ensures FlatMap(f, a + b) == FlatMap(f, a) + FlatMap(f, b)
    decreases |b|
  {
    if |b| > 0 {
      var ab := a + b;
      assert ab[..|ab| - 1] == a + b[..|b| - 1];
      FlatMapAppend(f, a, b[..|b| - 1]);
    } else {
      assert a + b == a;
    }
  }

  /** Appending `f` of the next element to an accumulated prefix. */
  lemma FlatMapStep<T, U>(f: T -> seq<U>, xs: seq<T>, i: int, acc: seq<U>, out: seq<U>)
    requires 0 <= i < |xs| && out == acc + FlatMap(f, xs[..i])
    ensures out + f(xs[i]) == acc + FlatMap(f, xs[..i + 1])
  {
    assert xs[..i + 1][..i] == xs[..i];
  }

  /** When `f` gives at most one element for each input, the result is no
      longer than the input. */
  lemma {:induction false} FlatMapBound<T, U>(f: T -> seq<U>, xs: seq<T>)
    requires forall x :: |f(x)| <= 1
    ensures |FlatMap(f, xs)| <= |xs|
    decreases |xs|
  {
    if |xs| > 0 {
      FlatMapBound(f, xs[..|xs| - 1]);
    }
  }

  /** The rows the files contribute, in directory order. */
  function FilesRows(files: seq<DirEntry>): seq<Row>
  {
    FlatMap(EntryRows, files)
  }

  /** Directory order is kept: listing `a` then `b` gives `a`'s rows then
      `b`'s. */
  lemma FilesRowsAppend(a: seq<DirEntry>, b: seq<DirEntry>)
    ensures FilesRows(a + b) == FilesRows(a) + FilesRows(b)
  {
    FlatMapAppend(EntryRows, a, b);
  }

  /** Each file adds at most one row, so there are never more rows than
      entries. */
  lemma FilesRowsBound(files: seq<DirEntry>)
    ensures |FilesRows(files)| <= |files|
  {
    forall e: DirEntry
      ensures |EntryRows(e)| <= 1
    {
      if Selected(e) && e.content.Some? {
        ProcessRowsAtMostOne(e.content.value);
      }
    }
    FlatMapBound(EntryRows, files);
  }

  /** A directory, a file with another suffix or an unreadable file adds
      nothing. */
  lemma SkippedEntry(files: seq<DirEntry>, e: DirEntry)
    requires !Selected(e) || e.content.None?
    ensures FilesRows(files + [e]) == FilesRows(files)
  {
    assert (files + [e])[..|files|] == files;
  }

  /** `extractTextFromFiles`: appends the rows of each selected, readable
      file to `result`, in directory order. */
  method ExtractTextFromFiles(files: seq<DirEntry>, result: seq<Row>) returns (out: seq<Row>)
    ensures out == result + FilesRows(files)
  {
    out := result;
    for i := 0 to |files|
      invariant out == result + FilesRows(files[..i])
    {
      FlatMapStep(EntryRows, files, i, result, out);
      var e := files[i];
      if !e.isDir && (HasSuffix(e.name, ".txt") || HasSuffix(e.name, ".content")) {
        if e.content.Some? {
          out := ProcessExtractedText(e.content.value, out);
        }
      }
    }
    assert files[..|files|] == files;
  }

  // ---------------------------------------------------------------------
  // ReadFromReader
  // ---------------------------------------------------------------------

  /** Whether a library or system step succeeded. */
  datatype Step = Succeeded | Failed(cause: string)

  /** What the environment does during one `ReadFromReader` call: the three
      temporary-file steps, the temporary directory, `ExtractContentFile`
      and the listing after it, the `ExtractPagesFile` fallback and its
      listing, `extractRawText`, and the metadata in the order the map is
      iterated. */
  datatype Steps = Steps(
    createTemp: Step,
    copy: Step,
    sync: Step,
    mkdirTemp: Step,
    extractContent: Step,
    contentDir: Result<seq<DirEntry>, string>,
    extractPages: Step,
    pagesDir: Result<seq<DirEntry>, string>,
    rawText: Result<string, string>,
    metadata: Result<seq<(string, string)>, string>)

  const Fallback := "Text extraction fallback"
  const Separator := "----- Metadata -----"
  const Placeholder := "No content extracted from PDF"

  /** The first failing temporary-file step, wrapped with its message. */
  function TempFileError(st: Steps): Option<Error>
  {
    if st.createTemp.Failed? then Some(WrapError(Library(st.createTemp.cause), "failed to create temporary file"))
    else if st.copy.Failed? then Some(WrapError(Library(st.copy.cause), "failed to write PDF data to temporary file"))
    else if st.sync.Failed? then Some(WrapError(Library(st.sync.cause), "failed to sync temporary file"))
    else None
  }

  /** The rows of the text phase when content extraction failed: the page
      files if any gave rows, otherwise the fallback row followed by the
      rows of the raw text. */
  function FallbackRows(st: Steps): seq<Row>
  {
    var pages := if st.extractPages.Succeeded? && st.pagesDir.Ok? then FilesRows(st.pagesDir.value) else [];
    if |pages| > 0 then pages
    else [[Fallback]] + (if st.rawText.Ok? && |st.rawText.value| > 0 then ProcessRows(st.rawText.value) else [])
  }

  /** The text phase. */
  function TextRows(cfg: FileInterface.PdfConfig, st: Steps): Result<seq<Row>, Error>
  {
    if !cfg.extractTextOnly then Ok([])
    else if st.mkdirTemp.Failed? then Err(WrapError(Library(st.mkdirTemp.cause), "failed to create temporary directory"))
    else if st.extractContent.Failed? then Ok(FallbackRows(st))
    else if st.contentDir.Err? then Err(WrapError(Library(st.contentDir.error), "failed to read content directory"))
    else Ok(FilesRows(st.contentDir.value))
  }

  function MetadataEntryRows(kvs: seq<(string, string)>): (rows: seq<Row>)
    ensures |rows| == |kvs|
    ensures forall k :: 0 <= k < |kvs| ==> rows[k] == ["Metadata", kvs[k].0, kvs[k].1]
  {
    seq(|kvs|, k requires 0 <= k < |kvs| => ["Metadata", kvs[k].0, kvs[k].1])
  }

  /** The metadata phase on top of the text rows. */
  function WithMetadata(cfg: FileInterface.PdfConfig, meta: Result<seq<(string, string)>, string>, rows: seq<Row>): seq<Row>
  {
    if !cfg.extractMetadata then rows
    else match meta
      case Err(e) => rows + [["Metadata extraction failed: " + e]]
      case Ok(kvs) => rows + (if |rows| > 0 then [[Separator]] else []) + MetadataEntryRows(kvs)
  }

  /** The whole of `ReadFromReader`. */
  function Assemble(cfg: FileInterface.PdfConfig, st: Steps): Result<seq<Row>, Error>
  {
    if TempFileError(st).Some? then Err(TempFileError(st).value)
    else match TextRows(cfg, st)
      case Err(e) => Err(e)
      case Ok(rows) =>
        var all := WithMetadata(cfg, st.metadata, rows);
        if |all| == 0 then Ok([[Placeholder]]) else Ok(all)
  }

  /** `ReadFromReader`, appending to one result as the code does. */
  method ReadFromReader(cfg: FileInterface.PdfConfig, st: Steps) returns (r: Result<seq<Row>, Error>)
    ensures r == Assemble(cfg, st)
  {
    if st.createTemp.Failed? {
      return Err(WrapError(Library(st.createTemp.cause), "failed to create temporary file"));
    }
    if st.copy.Failed? {
      return Err(WrapError(Library(st.copy.cause), "failed to write PDF data to temporary file"));
    }
    if st.sync.Failed? {
      return Err(WrapError(Library(st.sync.cause), "failed to sync temporary file"));
    }
    var text := ExtractText(cfg, st);
    if text.Err? {
      return Err(text.error);
    }
    var result := AppendMetadata(cfg, st.metadata, text.value);
    if |result| == 0 {
      return Ok([[Placeholder]]);
    }
    return Ok(result);
  }

  /** The text phase of `ReadFromReader`: the content files, or after a
      failed content extraction the page files, the fallback row and the
      raw text. */
  method ExtractText(cfg: FileInterface.PdfConfig, st: Steps) returns (r: Result<seq<Row>, Error>)
    ensures r == TextRows(cfg, st)
  {
    var result: seq<Row> := [];
    if cfg.extractTextOnly {
      if st.mkdirTemp.Failed? {
        return Err(WrapError(Library(st.mkdirTemp.cause), "failed to create temporary directory"));
      }
      if st.extractContent.Failed? {
        result := ExtractFallback(st);
      } else {
        if st.contentDir.Err? {
          return Err(WrapError(Library(st.contentDir.error), "failed to read content directory"));
        }
        result := ExtractTextFromFiles(st.contentDir.value, result);
        assert result == FilesRows(st.contentDir.value);
      }
    }
    return Ok(result);
  }

  /** The text phase after `ExtractContentFile` failed: the page files, and
      when they give nothing the fallback row and the rows of the raw text. */
  method ExtractFallback(st: Steps) returns (result: seq<Row>)
    ensures result == FallbackRows(st)
  {
    result := [];
    if st.extractPages.Succeeded? {
      if st.pagesDir.Ok? {
        result := ExtractTextFromFiles(st.pagesDir.value, result);
        assert result == FilesRows(st.pagesDir.value);
      }
    }
    if |result| == 0 {
      result := [[Fallback]];
      if st.rawText.Ok? && |st.rawText.value| > 0 {
        result := ProcessExtractedText(st.rawText.value, result);
      }
    }
  }

  /** The metadata phase of `ReadFromReader`, appending to the text rows. */
  method AppendMetadata(cfg: FileInterface.PdfConfig, meta: Result<seq<(string, string)>, string>, rows: seq<Row>)
    returns (result: seq<Row>)
    ensures result == WithMetadata(cfg, meta, rows)
  {
    result := rows;
    if cfg.extractMetadata {
      match meta {
        case Err(e) =>
          result := result + [["Metadata extraction failed: " + e]];
        case Ok(kvs) =>
          if |result| > 0 {
            result := result + [[Separator]];
          }
          var before := result;
          for i := 0 to |kvs|
            invariant result == before + MetadataEntryRows(kvs[..i])
          {
            result := result + [["Metadata", kvs[i].0, kvs[i].1]];
          }
          assert kvs[..|kvs|] == kvs;
      }
    }
  }

  /** A successful read never returns an empty table. */
  lemma AssembleNeverEmpty(cfg: FileInterface.PdfConfig, st: Steps)
    ensures Assemble(cfg, st).Ok? ==> |Assemble(cfg, st).value| > 0
  {
  }

  /** The read fails exactly on a temporary-file failure, on a failure to
      create the extraction directory, or on a failure to list it after a
      successful extraction; a metadata failure is never one of them. */
  lemma AssembleFailsIff(cfg: FileInterface.PdfConfig, st: Steps)
    ensures Assemble(cfg, st).Err? <==>
      TempFileError(st).Some? ||
      (cfg.extractTextOnly && (st.mkdirTemp.Failed? || (st.extractContent.Succeeded? && st.contentDir.Err?)))
  {
  }

  /** The placeholder replaces an otherwise empty result, which happens
      only when neither phase produced a row. */
  lemma PlaceholderWhenNothingExtracted(cfg: FileInterface.PdfConfig, st: Steps)
    requires TempFileError(st).None? && TextRows(cfg, st) == Ok([])
    requires !cfg.extractMetadata || (st.metadata.Ok? && st.metadata.value == [])
    ensures Assemble(cfg, st) == Ok([[Placeholder]])
  {
  }

  /** After a failed content extraction the text phase always yields rows,
      beginning with the fallback row unless the page files gave some, so
      the placeholder is not reached on that path. */
  lemma FallbackPathHasRows(cfg: FileInterface.PdfConfig, st: Steps)
    requires cfg.extractTextOnly && st.mkdirTemp.Succeeded? && st.extractContent.Failed?
    ensures TextRows(cfg, st).Ok? && |TextRows(cfg, st).value| > 0
    ensures TempFileError(st).None? ==> Assemble(cfg, st) == Ok(WithMetadata(cfg, st.metadata, TextRows(cfg, st).value))
    ensures (st.extractPages.Failed? || st.pagesDir.Err?) ==> TextRows(cfg, st).value[0] == [Fallback]
  {
  }

  /** A metadata failure adds one error row at the end and the read still
      succeeds when the text phase did. */
  lemma MetadataFailureIsARow(cfg: FileInterface.PdfConfig, st: Steps, rows: seq<Row>)
    requires cfg.extractMetadata && st.metadata.Err?
    requires TempFileError(st).None? && TextRows(cfg, st) == Ok(rows)
    ensures Assemble(cfg, st) == Ok(rows + [["Metadata extraction failed: " + st.metadata.error]])
  {
  }

  /** The separator row appears exactly when earlier rows exist, and every
      entry becomes a three-field row after it. */
  lemma MetadataLayout(cfg: FileInterface.PdfConfig, kvs: seq<(string, string)>, rows: seq<Row>)
    requires cfg.extractMetadata
    ensures var all := WithMetadata(cfg, Ok(kvs), rows);
      all[..|rows|] == rows &&
      (|rows| > 0 <==> |all| == |rows| + 1 + |kvs|) &&
      (|rows| > 0 ==> all[|rows|] == [Separator]) &&
      forall k :: 0 <= k < |kvs| ==> all[|all| - |kvs| + k] == ["Metadata", kvs[k].0, kvs[k].1]
  {
  }
}
