/** filereader/handlers.go: the two file routes. The query maps each name to
    its first value; whether a file part was present (with its file name),
    whether the body could be read, and what the chosen reader returned are
    inputs. The response timestamp is left out. */
module FileHandlers {

  import opened Wrappers
  import opened FileErrors
  import FileInterface
  import opened GinQuery

  type Row = seq<string>

  /** `FileReadResponse` without its timestamp; its `error` field is never
      set on success and is not modelled. */
  datatype Response = Response(
    version: string,
    filename: string,
    fileType: string,
    data: seq<Row>,
    rowsCount: int,
    columnsMax: int)

  datatype Outcome = Success(status: int, response: Response) | Failure(status: int, error: string)

  const MissingType := "File type parameter is required (csv or pdf)"
  const MissingFile := "No file provided or invalid file"
  const UnreadableBody := "Failed to read request body"

  /** `ShouldBindQuery` into `ReadFileParams`: the `required` binding
      rejects an absent parameter and an empty one alike. */
  function BindFileType(query: Query): (r: Option<string>)
    ensures r.None? <==> "fileType" !in query || query["fileType"] == ""
    ensures r.Some? ==> r.value == query["fileType"]
  {
    var t := QueryValue(query, "fileType");
    if t == "" then None else Some(t)
  }

  // ---------------------------------------------------------------------
  // Row statistics
  // ---------------------------------------------------------------------

  /** The widest row of `data`, 0 for no rows. */
  function MaxColumns(data: seq<Row>): nat
    decreases |data|
  {
    if |data| == 0 then 0
    else
      var m := MaxColumns(data[..|data| - 1]);
      var w := |data[|data| - 1]|;
      if w > m then w else m
  }

  /** `MaxColumns` is a maximum: no row is wider, and unless there are no
      rows it is the width of one of them. */
  lemma {:induction false} MaxColumnsIsMax(data: seq<Row>)
    ensures forall k :: 0 <= k < |data| ==> |data[k]| <= MaxColumns(data)
    ensures |data| == 0 ==> MaxColumns(data) == 0
    ensures |data| > 0 ==> exists k :: 0 <= k < |data| && MaxColumns(data) == |data[k]|
    decreases |data|
  {
    if |data| > 0 {
      var init := data[..|data| - 1];
      MaxColumnsIsMax(init);
      assert forall k :: 0 <= k < |init| ==> init[k] == data[k];
      if |init| > 0 && MaxColumns(data) == MaxColumns(init) {
        var k :| 0 <= k < |init| && MaxColumns(init) == |init[k]|;
        assert MaxColumns(data) == |data[k]|;
      }
    }
  }

  /** The statistics loop both handlers run over the reader's rows. */
  method RowStats(data: seq<Row>) returns (rowsCount: int, columnsMax: int)
    ensures rowsCount == |data|
    ensures columnsMax == MaxColumns(data)
    ensures forall k :: 0 <= k < |data| ==> |data[k]| <= columnsMax
    ensures |data| == 0 ==> columnsMax == 0
    ensures |data| > 0 ==> exists k :: 0 <= k < |data| && columnsMax == |data[k]|
  {
    rowsCount := |data|;
    columnsMax := 0;
    for i := 0 to |data|
      invariant columnsMax == MaxColumns(data[..i])
    {
      assert data[..i + 1][..i] == data[..i];
      if |data[i]| > columnsMax {
        columnsMax := |data[i]|;
      }
    }
    assert data[..|data|] == data;
    MaxColumnsIsMax(data);
  }

  // ---------------------------------------------------------------------
  // The two routes
  // ---------------------------------------------------------------------

  /** The success response both routes build from the reader's rows. */
  function SuccessResponse(filename: string, fileType: string, data: seq<Row>): (r: Outcome)
    ensures r.status == 200 && r.Success?
    ensures r.response.version == "1.0" && r.response.data == data
    ensures r.response.filename == filename && r.response.fileType == fileType
    ensures r.response.rowsCount == |data| && r.response.columnsMax == MaxColumns(data)
  {
    Success(200, Response("1.0", filename, fileType, data, |data|, MaxColumns(data)))
  }

  /** The reader a route hands the file to, if the type names one. */
  function Chosen(fileType: string): Option<FileInterface.Reader>
  {
    if FileInterface.NewReader(fileType).Ok? then Some(FileInterface.NewReader(fileType).value) else None
  }

  /** How both routes end once the request itself was accepted: the reader
      choice, then the read. */
  function AfterAccept(fileType: string, filename: string, read: Result<seq<Row>, Error>): Outcome
  {
    match FileInterface.NewReader(fileType)
    case Err(e) => Failure(400, Text(e))
    case Ok(_) =>
      match read
      case Err(e) => Failure(500, Text(e))
      case Ok(data) => SuccessResponse(filename, fileType, data)
  }

  /** A file type other than exactly "csv" or "pdf" is a 400 reading
      "unsupported file type" and no reader is chosen, whatever the reader
      would have returned; a reader error is a 500 with its text and no
      data; a successful read is a 200 whose data is the rows unchanged,
      with their count and widest row. */
  lemma AfterAcceptOutcomes(fileType: string, filename: string, read: Result<seq<Row>, Error>)
    ensures fileType != FileInterface.CSV && fileType != FileInterface.PDF ==>
      AfterAccept(fileType, filename, read) == Failure(400, "unsupported file type") && Chosen(fileType).None?
    ensures (fileType == FileInterface.CSV || fileType == FileInterface.PDF) && read.Err? ==>
      AfterAccept(fileType, filename, read) == Failure(500, Text(read.error)) && Chosen(fileType).Some?
    ensures (fileType == FileInterface.CSV || fileType == FileInterface.PDF) && read.Ok? ==>
      var r := AfterAccept(fileType, filename, read).response;
      AfterAccept(fileType, filename, read).Success? && r.version == "1.0" &&
      r.data == read.value && r.fileType == fileType && r.filename == filename &&
      r.rowsCount == |read.value| &&
      (forall k :: 0 <= k < |read.value| ==> |read.value[k]| <= r.columnsMax) &&
      (|read.value| == 0 ==> r.columnsMax == 0) &&
      (|read.value| > 0 ==> exists k :: 0 <= k < |read.value| && r.columnsMax == |read.value[k]|)
  {
    if read.Ok? {
      MaxColumnsIsMax(read.value);
    }
  }

  /** `ReadFileFromUpload`. `upload` is the file name of the "file" part,
      `None` when `FormFile` failed; `read` is what the reader returned for
      the file, and `used` is the reader the file was handed to, if any.
      The file type is checked first, then the file part, and only then is
      a reader chosen, so a missing file is reported even for an
      unsupported type. */
  method ReadFileFromUpload(query: Query, upload: Option<string>, read: Result<seq<Row>, Error>)
    returns (used: Option<FileInterface.Reader>, out: Outcome)
    ensures BindFileType(query).None? ==> out == Failure(400, MissingType) && used.None?
    ensures BindFileType(query).Some? && upload.None? ==> out == Failure(400, MissingFile) && used.None?
    ensures BindFileType(query).Some? && upload.Some? ==>
      var t := BindFileType(query).value;
      out == AfterAccept(t, upload.value, read) && used == Chosen(t)
  {
    var fileType := BindFileType(query);
    if fileType.None? {
      return None, Failure(400, MissingType);
    }
    if upload.None? {
      return None, Failure(400, MissingFile);
    }
    var reader := FileInterface.NewReader(fileType.value);
    if reader.Err? {
      return None, Failure(400, Text(reader.error));
    }
    used := Some(reader.value);
    if read.Err? {
      return used, Failure(500, Text(read.error));
    }
    var data := read.value;
    var rowsCount, columnsMax := RowStats(data);
    out := Success(200, Response("1.0", upload.value, fileType.value, data, rowsCount, columnsMax));
  }

  /** The file name `ReadFileFromBytes` reports: the "filename" parameter,
      or "unknown" when it is absent or empty. */
  function ReportedFilename(query: Query): (r: string)
    ensures r != ""
    ensures "filename" in query && query["filename"] != "" ==> r == query["filename"]
    ensures !("filename" in query && query["filename"] != "") ==> r == "unknown"
  {
    var f := QueryValue(query, "filename");
    if f == "" then "unknown" else f
  }

  /** `ReadFileFromBytes`. `body` is what reading the request body gave and
      `read` what the reader returned for those bytes. The body is read
      before a reader is chosen, so an unreadable body is reported even for
      an unsupported type. */
  method ReadFileFromBytes(query: Query, body: Result<string, string>, read: Result<seq<Row>, Error>)
    returns (used: Option<FileInterface.Reader>, out: Outcome)
    ensures BindFileType(query).None? ==> out == Failure(400, MissingType) && used.None?
    ensures BindFileType(query).Some? && body.Err? ==> out == Failure(400, UnreadableBody) && used.None?
    ensures BindFileType(query).Some? && body.Ok? ==>
      var t := BindFileType(query).value;
      out == AfterAccept(t, ReportedFilename(query), read) && used == Chosen(t)
  {
    var fileType := BindFileType(query);
    if fileType.None? {
      return None, Failure(400, MissingType);
    }
    var filename := QueryValue(query, "filename");
    if filename == "" {
      filename := "unknown";
    }
    if body.Err? {
      return None, Failure(400, UnreadableBody);
    }
    var reader := FileInterface.NewReader(fileType.value);
    if reader.Err? {
      return None, Failure(400, Text(reader.error));
    }
    used := Some(reader.value);
    if read.Err? {
      return used, Failure(500, Text(read.error));
    }
    var data := read.value;
    var rowsCount, columnsMax := RowStats(data);
    out := Success(200, Response("1.0", filename, fileType.value, data, rowsCount, columnsMax));
  }
}
