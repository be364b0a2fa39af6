/** filereader/interface.go: choosing a reader by file type. A reader is its
    configuration; what it does with a file is modelled in `PdfReader` for
    PDF and left to `encoding/csv` for CSV. */
module FileInterface {

  import opened Wrappers
  import opened FileErrors

  /** `CSVReader` as `NewCSVReader` builds it; the comment rune 0 means no
      comment character. */
  datatype CsvConfig = CsvConfig(
    comma: char,
    comment: char,
    fieldsPerRecord: int,
    lazyQuotes: bool,
    trimLeadingSpace: bool)

  /** `PDFReader`: whether to extract metadata rows and text rows. */
  datatype PdfConfig = PdfConfig(extractMetadata: bool, extractTextOnly: bool)

  datatype Reader = CsvReader(csv: CsvConfig) | PdfReader(pdf: PdfConfig)

  const CSV := "csv"
  const PDF := "pdf"

  /** `NewCSVReader()`. */
  const DefaultCsv := CsvConfig(',', 0 as char, -1, false, false)

  /** `NewPDFReader()`. */
  const DefaultPdf := PdfConfig(true, true)

  /** `NewReader`: exactly "csv" and "pdf" are known, compared byte for byte
      (so "CSV" is not), and every other value is the unsupported-type
      sentinel; exactly one of a reader and an error comes back. */
  function NewReader(fileType: string): (r: Result<Reader, Error>)
    ensures fileType == CSV <==> r == Ok(CsvReader(DefaultCsv))
    ensures fileType == PDF <==> r == Ok(PdfReader(DefaultPdf))
    ensures r.Err? <==> fileType != CSV && fileType != PDF
    ensures r.Err? ==> r.error == UnsupportedFileType
  {
    if fileType == CSV then Ok(CsvReader(DefaultCsv))
    else if fileType == PDF then Ok(PdfReader(DefaultPdf))
    else Err(UnsupportedFileType)
  }

  /** Upper case and the empty string are unsupported, and the error the
      caller sees reads "unsupported file type". */
  lemma NewReaderIsCaseSensitive()
    ensures NewReader("CSV") == NewReader("PDF") == NewReader("") == Err(UnsupportedFileType)
    ensures Text(NewReader("").error) == "unsupported file type"
  {
    assert "CSV" != CSV && "PDF" != PDF;
  }
}
