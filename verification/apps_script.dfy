/**
 * google-apps-script.js: the first Apps Script endpoint. doPost opens the
 * sheet, parses the body, uploads a file when one is named and has
 * content, appends a 17-cell row and replies; doGet answers with JSON or,
 * given a callback, JSONP.
 */
module AppsScript {
  import opened Common
  import opened ScriptCommon

  /** setupSheetHeaders' header row. */
  const Headers: seq<string> := [
    "Name", "Company", "Project Type", "Budget", "Message", "Contact Method", "Status", "Timestamp",
    "Email", "Phone", "Improvements", "Custom Improvement", "Start Date", "File Upload",
    "AB Test Title", "Form Type", "Source URL"]

  const JoinTypeError: string := "TypeError: data.improvements.join is not a function"
  const RunningMessage: string := "Google Sheets Form Handler is running"

  /** An upload is attempted when fileName and fileContent are both truthy. */
  predicate UploadWanted(data: Record)
  {
    Has(data, "fileName") && Has(data, "fileContent")
  }

  /** The File Upload cell: empty without an upload, else the link or the failure. */
  function FileInfo(data: Record, uploadTime: string, upload: UploadEffect): (r: string)
    ensures r == "" <==> !UploadWanted(data)
    ensures UploadWanted(data) && upload.Uploaded? ==>
      r == "File uploaded: " + UploadName(data, uploadTime, data["fileName"]) + " - Link: " + upload.url
    ensures UploadWanted(data) && upload.UploadThrew? ==> r == UploadFailedPrefix + upload.error
  {
    if !UploadWanted(data) then ""
    else match upload
      case Uploaded(url) => "File uploaded: " + UploadName(data, uploadTime, data["fileName"]) + " - Link: " + url
      case UploadThrew(e) => UploadFailedPrefix + e
  }

  /** `data.improvements ? data.improvements.join(', ') : ''`: only an array has join. */
  function ImprovementsCell(data: Record): (r: Result<Json>)
    ensures r.Err? <==> Has(data, "improvements") && !data["improvements"].JArr?
    ensures r.Err? ==> r.message == JoinTypeError
    ensures r.Ok? && Has(data, "improvements") ==> r.value == JStr(Join(data["improvements"].items, ", "))
    ensures r.Ok? && !Has(data, "improvements") ==> r.value == JStr("")
  {
    if !Has(data, "improvements") then Ok(JStr(""))
    else match data["improvements"]
      case JArr(items) => Ok(JStr(Join(items, ", ")))
      case _ => Err(JoinTypeError)
  }

  /** rowData: 17 cells in the order of Headers. */
  function Row(data: Record, improvements: Json, fileInfo: string, rowTime: string): seq<Json>
  {
    [ OrEmpty(data, "name"), OrEmpty(data, "company"), OrEmpty(data, "projectType"), OrEmpty(data, "budget"),
      OrEmpty(data, "message"), OrEmpty(data, "contactMethod"), JStr(StatusValue), JStr(rowTime),
      OrEmpty(data, "email"), OrEmpty(data, "phone"), improvements, OrEmpty(data, "customImprovement"),
      OrEmpty(data, "startDate"), JStr(fileInfo), OrEmpty(data, "ab_test_title"), OrEmpty(data, "form_type"),
      OrEmpty(data, "url") ]
  }

  /** Each cell of the row is what its header names. */
  lemma RowMatchesHeaders(data: Record, improvements: Json, fileInfo: string, rowTime: string)
    ensures |Row(data, improvements, fileInfo, rowTime)| == |Headers| == 17
    ensures forall i :: 0 <= i < |Headers| ==>
      CellMeans(Headers[i], Row(data, improvements, fileInfo, rowTime)[i], data, improvements, fileInfo, rowTime)
  {
    RowCells0To3(data, improvements, fileInfo, rowTime);
    RowCells3To6(data, improvements, fileInfo, rowTime);
    RowCells6To9(data, improvements, fileInfo, rowTime);
    RowCells9To12(data, improvements, fileInfo, rowTime);
    RowCells12To15(data, improvements, fileInfo, rowTime);
    RowCells15To17(data, improvements, fileInfo, rowTime);
  }

  lemma RowCells0To3(data: Record, improvements: Json, fileInfo: string, rowTime: string)
    ensures forall i :: 0 <= i < 3 ==>
      CellMeans(Headers[i], Row(data, improvements, fileInfo, rowTime)[i], data, improvements, fileInfo, rowTime)
  {
  }

  lemma RowCells3To6(data: Record, improvements: Json, fileInfo: string, rowTime: string)
    ensures forall i :: 3 <= i < 6 ==>
      CellMeans(Headers[i], Row(data, improvements, fileInfo, rowTime)[i], data, improvements, fileInfo, rowTime)
  {
  }

  lemma RowCells6To9(data: Record, improvements: Json, fileInfo: string, rowTime: string)
    ensures forall i :: 6 <= i < 9 ==>
      CellMeans(Headers[i], Row(data, improvements, fileInfo, rowTime)[i], data, improvements, fileInfo, rowTime)
  {
  }

  lemma RowCells9To12(data: Record, improvements: Json, fileInfo: string, rowTime: string)
    ensures forall i :: 9 <= i < 12 ==>
      CellMeans(Headers[i], Row(data, improvements, fileInfo, rowTime)[i], data, improvements, fileInfo, rowTime)
  {
  }

  lemma RowCells12To15(data: Record, improvements: Json, fileInfo: string, rowTime: string)
    ensures forall i :: 12 <= i < 15 ==>
      CellMeans(Headers[i], Row(data, improvements, fileInfo, rowTime)[i], data, improvements, fileInfo, rowTime)
  {
  }

  lemma RowCells15To17(data: Record, improvements: Json, fileInfo: string, rowTime: string)
    ensures forall i :: 15 <= i < 17 ==>
      CellMeans(Headers[i], Row(data, improvements, fileInfo, rowTime)[i], data, improvements, fileInfo, rowTime)
  {
  }

  /** The headers name seventeen different known columns. */
  lemma HeadersKnownDistinct()
    ensures KnownDistinct(Headers)
  {
  }

  /**
   * doPost. The sheet is opened before the body is parsed; the upload runs
   * before the row is built, so a row that throws on improvements still
   * leaves the file in Drive.
   */
  function DoPost(env: PostEnv): (r: PostResult)
    ensures env.openError.Some? ==> r == PostResult(None, None, Refused(ErrorPrefix + env.openError.value))
    ensures env.openError.None? && env.parsed.Err? ==> r == PostResult(None, None, Refused(ErrorPrefix + env.parsed.message))
    ensures env.openError.None? && env.parsed.Ok? ==>
      var data := env.parsed.value;
      && (r.uploadedAs.Some? <==> UploadWanted(data))
      && (r.uploadedAs.Some? ==> r.uploadedAs.value == UploadName(data, env.uploadTime, data["fileName"]))
      && (ImprovementsCell(data).Err? ==> r.reply == Refused(ErrorPrefix + JoinTypeError) && r.row.None?)
      && (ImprovementsCell(data).Ok? && env.appendError.Some? ==>
            r.reply == Refused(ErrorPrefix + env.appendError.value) && r.row.None?)
      && (ImprovementsCell(data).Ok? && env.appendError.None? ==>
            var fileInfo := FileInfo(data, env.uploadTime, env.upload);
            && r.row == Some(Row(data, ImprovementsCell(data).value, fileInfo, env.rowTime))
            && r.reply == AcceptedWith(fileInfo))
    ensures r.reply.Accepted? <==> r.row.Some?
    ensures r.reply.Refused? ==> ErrorPrefix <= r.reply.message
  {
    if env.openError.Some? then PostResult(None, None, Refused(ErrorPrefix + env.openError.value))
    else match env.parsed
      case Err(e) => PostResult(None, None, Refused(ErrorPrefix + e))
      case Ok(data) =>
        var uploadedAs := if UploadWanted(data) then Some(UploadName(data, env.uploadTime, data["fileName"])) else None;
        var fileInfo := FileInfo(data, env.uploadTime, env.upload);
        match ImprovementsCell(data)
        case Err(e) => PostResult(uploadedAs, None, Refused(ErrorPrefix + e))
        case Ok(improvements) =>
          if env.appendError.Some? then PostResult(uploadedAs, None, Refused(ErrorPrefix + env.appendError.value))
          else PostResult(uploadedAs, Some(Row(data, improvements, fileInfo, env.rowTime)), AcceptedWith(fileInfo))
  }

  /**
   * A stored row reports an upload exactly when one was attempted, whether
   * or not it succeeded; the File Upload cell then starts with the outcome.
   */
  lemma UploadFlagMeansAttempt(env: PostEnv)
    requires DoPost(env).reply.Accepted?
    ensures env.parsed.Ok?
    ensures DoPost(env).reply.fileUploaded <==> UploadWanted(env.parsed.value)
    ensures DoPost(env).reply.message == SubmittedMessage + FileSuffix <==> UploadWanted(env.parsed.value)
    ensures UploadWanted(env.parsed.value) ==>
      var cell := DoPost(env).row.value[13];
      cell.JStr? && ("File uploaded: " <= cell.s || UploadFailedPrefix <= cell.s)
  {
    var data := env.parsed.value;
    var fileInfo := FileInfo(data, env.uploadTime, env.upload);
    assert env.openError.None? && env.appendError.None?;
    assert DoPost(env).reply == AcceptedWith(fileInfo);
    assert DoPost(env).row.value[13] == JStr(fileInfo);
    if UploadWanted(data) {
      FileCellOutcome(data, env.uploadTime, env.upload);
    }
  }

  /** An attempted upload leaves a cell that starts with its outcome. */
  lemma FileCellOutcome(data: Record, uploadTime: string, upload: UploadEffect)
    requires UploadWanted(data)
    ensures var f := FileInfo(data, uploadTime, upload);
      "File uploaded: " <= f || UploadFailedPrefix <= f
  {
    match upload
    case Uploaded(url) =>
      PrefixOfConcat("File uploaded: ", UploadName(data, uploadTime, data["fileName"]) + " - Link: " + url);
    case UploadThrew(e) =>
      PrefixOfConcat(UploadFailedPrefix, e);
  }

  /** doOptions: an empty JSON text for the CORS preflight. */
  function DoOptions(): (r: TextOutput)
    ensures r.content == "" && r.mime == JsonMime
  {
    TextOutput("", JsonMime)
  }

  /**
   * A CORS preflight gets an empty JSON answer: it never carries the status
   * report a GET returns, whether that comes as JSON or as JSONP.
   */
  lemma PreflightIsNotStatus(callback: Option<string>, now: string)
    ensures DoOptions().mime == JsonMime
    ensures DoOptions().content == "" && DoGet(callback, now).content != ""
  {
  }

  /** doGet's response object. */
  function GetResponse(now: string): seq<JsonField>
  {
    [BoolField("success", true), TextField("message", RunningMessage), TextField("timestamp", now)]
  }

  /** doGet: JSONP when a non-empty callback is given, plain JSON otherwise. */
  function DoGet(callback: Option<string>, now: string): (r: TextOutput)
    ensures callback.Some? && callback.value != "" ==>
      r.mime == JavascriptMime && Unwrap(callback.value, r.content) == Some(Stringify(GetResponse(now)))
    ensures callback.None? || callback.value == "" ==>
      r == TextOutput(Stringify(GetResponse(now)), JsonMime)
  {
    var json := Stringify(GetResponse(now));
    if callback.Some? && callback.value != "" then
      JsonpUnwraps(callback.value, json);
      TextOutput(Jsonp(callback.value, json), JavascriptMime)
    else TextOutput(json, JsonMime)
  }

  /** setupSheetHeaders: the header row written, or nothing when the sheet cannot be opened. */
  function SetupSheetHeaders(openError: Option<string>): (r: Option<seq<string>>)
    ensures r.Some? <==> openError.None?
    ensures r.Some? ==> r.value == Headers
    ensures r.Some? ==> |r.value| == 17 && KnownDistinct(r.value)
  {
    if openError.Some? then None else Some(Headers)
  }
}
