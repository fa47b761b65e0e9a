/**
 * google-apps-script-fixed.js: the second Apps Script endpoint. doPost
 * parses the body before opening the sheet, uploads only when the file
 * type is also given, and appends a 13-cell row ending in the timestamp;
 * improvements are stored as received. doGet always answers plain JSON.
 */
module AppsScriptFixed {
  import opened Common
  import opened ScriptCommon
  import AppsScript

  /** setupSheetHeaders' header row. */
  const Headers: seq<string> := [
    "Name", "Company", "Project Type", "Budget", "Message", "Contact Method", "Status",
    "Improvements", "Custom Improvement", "Start Date", "AB Test Title", "File Upload", "Timestamp"]

  const RunningMessage: string := "Google Sheets Form Handler is running"

  /** An upload is attempted when fileName, fileContent and fileType are all truthy. */
  predicate UploadWanted(data: Record)
  {
    Has(data, "fileName") && Has(data, "fileContent") && Has(data, "fileType")
  }

  /**
   * The File Upload cell: empty without an upload, else the Drive file's
   * name and link, or the failure.
   */
  function FileInfo(data: Record, uploadTime: string, upload: UploadEffect): (r: string)
    ensures r == "" <==> !UploadWanted(data)
    ensures UploadWanted(data) && upload.Uploaded? ==>
      r == "File: " + UploadName(data, uploadTime, data["fileName"]) + " - Link: " + upload.url
    ensures UploadWanted(data) && upload.UploadThrew? ==> r == UploadFailedPrefix + upload.error
  {
    if !UploadWanted(data) then ""
    else match upload
      case Uploaded(url) => "File: " + UploadName(data, uploadTime, data["fileName"]) + " - Link: " + url
      case UploadThrew(e) => UploadFailedPrefix + e
  }

  /** rowData: 13 cells in the order of Headers; improvements is `data.improvements || ''`. */
  function Row(data: Record, fileInfo: string, rowTime: string): seq<Json>
  {
    [ OrEmpty(data, "name"), OrEmpty(data, "company"), OrEmpty(data, "projectType"), OrEmpty(data, "budget"),
      OrEmpty(data, "message"), OrEmpty(data, "contactMethod"), JStr(StatusValue), OrEmpty(data, "improvements"),
      OrEmpty(data, "customImprovement"), OrEmpty(data, "startDate"), OrEmpty(data, "ab_test_title"),
      JStr(fileInfo), JStr(rowTime) ]
  }

  /** Each cell of the row is what its header names; improvements are kept as received. */
  lemma RowMatchesHeaders(data: Record, fileInfo: string, rowTime: string)
    ensures |Row(data, fileInfo, rowTime)| == |Headers| == 13
    ensures Headers[12] == "Timestamp"
    ensures forall i :: 0 <= i < |Headers| ==>
      CellMeans(Headers[i], Row(data, fileInfo, rowTime)[i], data, OrEmpty(data, "improvements"), fileInfo, rowTime)
  {
    RowCells0To4(data, fileInfo, rowTime);
    RowCells4To7(data, fileInfo, rowTime);
    RowCells7To10(data, fileInfo, rowTime);
    RowCells10To13(data, fileInfo, rowTime);
  }

  lemma RowCells0To4(data: Record, fileInfo: string, rowTime: string)
    ensures forall i :: 0 <= i < 4 ==>
      CellMeans(Headers[i], Row(data, fileInfo, rowTime)[i], data, OrEmpty(data, "improvements"), fileInfo, rowTime)
  {
  }

  lemma RowCells4To7(data: Record, fileInfo: string, rowTime: string)
    ensures forall i :: 4 <= i < 7 ==>
      CellMeans(Headers[i], Row(data, fileInfo, rowTime)[i], data, OrEmpty(data, "improvements"), fileInfo, rowTime)
  {
  }

  lemma RowCells7To10(data: Record, fileInfo: string, rowTime: string)
    ensures forall i :: 7 <= i < 10 ==>
      CellMeans(Headers[i], Row(data, fileInfo, rowTime)[i], data, OrEmpty(data, "improvements"), fileInfo, rowTime)
  {
  }

  lemma RowCells10To13(data: Record, fileInfo: string, rowTime: string)
    ensures forall i :: 10 <= i < 13 ==>
      CellMeans(Headers[i], Row(data, fileInfo, rowTime)[i], data, OrEmpty(data, "improvements"), fileInfo, rowTime)
  {
  }

  /** The headers name thirteen different known columns. */
  lemma HeadersKnownDistinct()
    ensures KnownDistinct(Headers)
  {
  }

  /**
   * doPost. The body is parsed before the sheet is opened; nothing in the
   * row can throw, so once both succeed only appendRow can fail.
   */
  function DoPost(env: PostEnv): (r: PostResult)
    ensures env.parsed.Err? ==> r == PostResult(None, None, Refused(ErrorPrefix + env.parsed.message))
    ensures env.parsed.Ok? && env.openError.Some? ==> r == PostResult(None, None, Refused(ErrorPrefix + env.openError.value))
    ensures env.parsed.Ok? && env.openError.None? ==>
      var data := env.parsed.value;
      && (r.uploadedAs.Some? <==> UploadWanted(data))
      && (r.uploadedAs.Some? ==> r.uploadedAs.value == UploadName(data, env.uploadTime, data["fileName"]))
      && (env.appendError.Some? ==> r.reply == Refused(ErrorPrefix + env.appendError.value) && r.row.None?)
      && (env.appendError.None? ==>
            var fileInfo := FileInfo(data, env.uploadTime, env.upload);
            && r.row == Some(Row(data, fileInfo, env.rowTime))
            && r.reply == AcceptedWith(fileInfo))
    ensures r.reply.Accepted? <==> r.row.Some?
    ensures r.reply.Refused? ==> ErrorPrefix <= r.reply.message
  {
    match env.parsed
    case Err(e) => PostResult(None, None, Refused(ErrorPrefix + e))
    case Ok(data) =>
      if env.openError.Some? then PostResult(None, None, Refused(ErrorPrefix + env.openError.value))
      else
        var uploadedAs := if UploadWanted(data) then Some(UploadName(data, env.uploadTime, data["fileName"])) else None;
        var fileInfo := FileInfo(data, env.uploadTime, env.upload);
        if env.appendError.Some? then PostResult(uploadedAs, None, Refused(ErrorPrefix + env.appendError.value))
        else PostResult(uploadedAs, Some(Row(data, fileInfo, env.rowTime)), AcceptedWith(fileInfo))
  }

  /** A stored row reports an upload exactly when one was attempted, a failed one included. */
  lemma UploadFlagMeansAttempt(env: PostEnv)
    requires DoPost(env).reply.Accepted?
    ensures env.parsed.Ok?
    ensures DoPost(env).reply.fileUploaded <==> UploadWanted(env.parsed.value)
    ensures DoPost(env).reply.message == SubmittedMessage + FileSuffix <==> UploadWanted(env.parsed.value)
    ensures UploadWanted(env.parsed.value) ==>
      var cell := DoPost(env).row.value[11];
      cell.JStr? && ("File: " <= cell.s || UploadFailedPrefix <= cell.s)
  {
    var data := env.parsed.value;
    var fileInfo := FileInfo(data, env.uploadTime, env.upload);
    assert env.openError.None? && env.appendError.None?;
    assert DoPost(env).reply == AcceptedWith(fileInfo);
    assert DoPost(env).row.value[11] == JStr(fileInfo);
    if UploadWanted(data) {
      FileCellOutcome(data, env.uploadTime, env.upload);
    }
  }

  /** An attempted upload leaves a cell that starts with its outcome. */
  lemma FileCellOutcome(data: Record, uploadTime: string, upload: UploadEffect)
    requires UploadWanted(data)
    ensures var f := FileInfo(data, uploadTime, upload);
      "File: " <= f || UploadFailedPrefix <= f
  {
    match upload
    case Uploaded(url) =>
      PrefixOfConcat("File: ", UploadName(data, uploadTime, data["fileName"]) + " - Link: " + url);
    case UploadThrew(e) =>
      PrefixOfConcat(UploadFailedPrefix, e);
  }

  /** doGet: plain JSON with only the message and the time; a callback is ignored. */
  function DoGet(callback: Option<string>, now: string): (r: TextOutput)
    ensures r.mime == JsonMime
    ensures r.content == Stringify([TextField("message", RunningMessage), TextField("timestamp", now)])
  {
    TextOutput(Stringify([TextField("message", RunningMessage), TextField("timestamp", now)]), JsonMime)
  }

  /**
   * The second endpoint ignores the `callback` parameter: a JSONP client
   * gets plain JSON back, which it cannot unwrap, where the first endpoint
   * answers with script.
   */
  lemma CallbackIgnored(callback: string, now: string)
    requires callback != ""
    ensures DoGet(Some(callback), now) == DoGet(None, now)
    ensures Unwrap(callback, DoGet(Some(callback), now).content).None?
    ensures AppsScript.DoGet(Some(callback), now).mime == JavascriptMime
  {
    var r := DoGet(Some(callback), now);
    assert r.content == DoGet(None, now).content;
    ObjectIsNotJsonp(callback, r.content);
  }

  /** setupSheetHeaders: the header row written, or nothing when the sheet cannot be opened. */
  function SetupSheetHeaders(openError: Option<string>): (r: Option<seq<string>>)
    ensures r.Some? <==> openError.None?
    ensures r.Some? ==> r.value == Headers
    ensures r.Some? ==> |r.value| == 13 && KnownDistinct(r.value) && r.value[12] == "Timestamp"
  {
    if openError.Some? then None else Some(Headers)
  }

  // ---------------------------------------------------------------------------
  // The two endpoints side by side
  // ---------------------------------------------------------------------------

  /**
   * Every field column of this sheet is a column of the first one, and a
   * record fills both with the same value.
   */
  lemma FieldColumnsShared(data: Record, improvements: Json, fileInfo: string, fileInfo': string, rowTime: string)
    ensures forall i :: 0 <= i < |Headers| && Headers[i] in ColumnField ==>
      exists j :: 0 <= j < |AppsScript.Headers| && AppsScript.Headers[j] == Headers[i]
        && AppsScript.Row(data, improvements, fileInfo', rowTime)[j] == Row(data, fileInfo, rowTime)[i]
  {
    RowMatchesHeaders(data, fileInfo, rowTime);
    AppsScript.RowMatchesHeaders(data, improvements, fileInfo', rowTime);
    forall i | 0 <= i < |Headers| && Headers[i] in ColumnField
      ensures exists j :: 0 <= j < |AppsScript.Headers| && AppsScript.Headers[j] == Headers[i]
                          && AppsScript.Row(data, improvements, fileInfo', rowTime)[j] == Row(data, fileInfo, rowTime)[i]
    {
      var j := ColumnInFirst(i);
      assert AppsScript.Headers[j] == Headers[i];
    }
  }

  /** Where a field column of this sheet sits in the first one. */
  function ColumnInFirst(i: nat): (j: nat)
    requires i < |Headers| && Headers[i] in ColumnField
    ensures j < |AppsScript.Headers| && AppsScript.Headers[j] == Headers[i]
  {
    if i <= 5 then i else if i == 8 then 11 else if i == 9 then 12 else 14
  }

  /**
   * On the same request, with a file type given and improvements the
   * first endpoint can join, both endpoints store a row and give the same
   * reply, though the File Upload texts differ.
   */
  lemma SameReply(env: PostEnv)
    requires env.parsed.Ok? && Has(env.parsed.value, "fileType")
    requires AppsScript.ImprovementsCell(env.parsed.value).Ok?
    ensures AppsScript.DoPost(env).reply == DoPost(env).reply
    ensures AppsScript.DoPost(env).uploadedAs == DoPost(env).uploadedAs
  {
    var data := env.parsed.value;
    var f1 := AppsScript.FileInfo(data, env.uploadTime, env.upload);
    var f2 := FileInfo(data, env.uploadTime, env.upload);
    assert AppsScript.UploadWanted(data) == UploadWanted(data);
    assert (f1 == "") == (f2 == "");
  }

  /**
   * When the sheet cannot be opened and the body does not parse, the two
   * endpoints report different errors: the first opens the sheet first.
   */
  lemma ErrorOrderDiffers(env: PostEnv)
    requires env.openError.Some? && env.parsed.Err?
    ensures AppsScript.DoPost(env).reply == Refused(ErrorPrefix + env.openError.value)
    ensures DoPost(env).reply == Refused(ErrorPrefix + env.parsed.message)
  {
  }

  /**
   * sendToServer posts improvements already joined into one string. The
   * first endpoint calls join on it and refuses the submission without a
   * row; this one stores the string as received.
   */
  lemma JoinedImprovementsStored(env: PostEnv)
    requires env.openError.None? && env.parsed.Ok? && env.appendError.None?
    requires Has(env.parsed.value, "improvements") && env.parsed.value["improvements"].JStr?
    ensures AppsScript.DoPost(env).reply == Refused(ErrorPrefix + AppsScript.JoinTypeError)
    ensures AppsScript.DoPost(env).row.None?
    ensures DoPost(env).reply.Accepted?
    ensures DoPost(env).row.Some? && DoPost(env).row.value[7] == env.parsed.value["improvements"]
  {
  }
}
