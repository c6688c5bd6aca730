/** `buildAttachments` of the email service: turns the optional attachment
    descriptor of a request into the list of files handed to the mail
    transport. Only the `csv` format produces a file; the CSV serialiser
    (`json2csv.parse`) is a parameter. */
module Attachments {
  import opened JsValues

  /** `requestBody.attachment`. */
  datatype AttachmentSpec = AttachmentSpec(
    filename: Option<string>,
    format: string,
    data: Option<Json>,
    options: Option<Json>)

  /** One entry of the list passed to the transport. */
  datatype AttachmentFile = AttachmentFile(filename: string, content: string)

  /** What the CSV serialiser returns, or that it threw. */
  datatype CsvParse = Csv(text: string) | CsvThrew

  /** `json2csv.parse(data)` (options None) or `json2csv.parse(data, options)`. */
  type CsvParser = (Json, Option<Json>) -> CsvParse

  const DefaultFilename := "list.csv"

  const DataMissingMessage := "requestBody.attachment was given but cannot read requestBody.attachment.data"
  const DataNotObjectMessage := "Cannot read requestBody.attachment.data. Has to be an object"
  const OptionsNotObjectMessage := "Cannot read requestBody.attachment.options. Has to be an object"
  const ParseFailedMessage := "Cannot json2csvParser.parse requestBody.attachment.data"

  /** The name of the CSV file: a given name that contains a dot is kept, a
      given name without one gets the format as extension, and no name (or an
      empty one) gives `list.csv`. */
  function CsvFilename(filename: Option<string>, format: string): (r: string)
    ensures TruthyStr(filename) && '.' in filename.value ==> r == filename.value
    ensures TruthyStr(filename) && '.' !in filename.value ==> r == filename.value + "." + format
    ensures !TruthyStr(filename) ==> r == DefaultFilename
    ensures '.' in r
  {
    if TruthyStr(filename) && '.' in filename.value then filename.value
    else if TruthyStr(filename) then
      assert (filename.value + "." + format)[|filename.value|] == '.';
      filename.value + "." + format
    else
      assert DefaultFilename[4] == '.';
      DefaultFilename
  }

  /** Naming a file a second time changes nothing: the name already has a dot. */
  lemma CsvFilenameIdempotent(filename: Option<string>, format: string)
    ensures var once := CsvFilename(filename, format);
            CsvFilename(Some(once), format) == once
  {
  }

  /** The attachments of a request, or the error `buildAttachments` throws. */
  function Build(attachment: Option<AttachmentSpec>, parse: CsvParser): (r: Result<seq<AttachmentFile>>)
    // no descriptor: nothing to attach
    ensures attachment.None? ==> r == Ok([])
    // the data check comes before the format is looked at
    ensures attachment.Some? && !Truthy(attachment.value.data) ==> r == Err(Error(DataMissingMessage))
    // an unknown format is skipped without error
    ensures attachment.Some? && Truthy(attachment.value.data) && attachment.value.format != "csv" ==> r == Ok([])
    // csv: the data, then a given options value, must be objects
    ensures attachment.Some? && Truthy(attachment.value.data) && attachment.value.format == "csv" ==>
              (!IsObject(attachment.value.data) ==> r == Err(Error(DataNotObjectMessage))) &&
              ((IsObject(attachment.value.data) && Truthy(attachment.value.options) &&
                !IsObject(attachment.value.options)) ==> r == Err(Error(OptionsNotObjectMessage)))
    // at most one file, and only for a csv descriptor whose checks passed
    ensures r.Ok? ==> |r.value| <= 1
    ensures r.Ok? && |r.value| == 1 ==>
              && attachment.Some?
              && attachment.value.format == "csv"
              && IsObject(attachment.value.data)
              && (Truthy(attachment.value.options) ==> IsObject(attachment.value.options))
              && r.value[0].filename == CsvFilename(attachment.value.filename, "csv")
    // a csv descriptor whose checks passed yields exactly the serialised file
    ensures attachment.Some? && attachment.value.format == "csv" && Truthy(attachment.value.data) &&
            IsObject(attachment.value.data) &&
            (Truthy(attachment.value.options) ==> IsObject(attachment.value.options)) ==>
              var options := if Truthy(attachment.value.options) then attachment.value.options else None;
              match parse(attachment.value.data.value, options)
              case CsvThrew => r == Err(Error(ParseFailedMessage))
              case Csv(text) => r == Ok([AttachmentFile(CsvFilename(attachment.value.filename, "csv"), text)])
  {
    if attachment.None? then Ok([])
    else
      var a := attachment.value;
      if !Truthy(a.data) then Err(Error(DataMissingMessage))
      else if a.format != "csv" then Ok([])
      else if !IsObject(a.data) then Err(Error(DataNotObjectMessage))
      else if Truthy(a.options) && !IsObject(a.options) then Err(Error(OptionsNotObjectMessage))
      else
        var options := if Truthy(a.options) then a.options else None;
        match parse(a.data.value, options)
        case CsvThrew => Err(Error(ParseFailedMessage))
        case Csv(text) => Ok([AttachmentFile(CsvFilename(a.filename, a.format), text)])
  }

  /** The names a descriptor without a filename, with `report` and with
      `report.txt` get. */
  lemma FilenameExamples()
    ensures CsvFilename(None, "csv") == "list.csv"
    ensures CsvFilename(Some(""), "csv") == "list.csv"
    ensures CsvFilename(Some("report"), "csv") == "report.csv"
    ensures CsvFilename(Some("report.txt"), "csv") == "report.txt"
  {
    assert '.' !in "report";
    assert "report.txt"[6] == '.';
  }
}
