/**
 * What the two Apps Script endpoints (google-apps-script.js and
 * google-apps-script-fixed.js) share: the parsed request record and
 * JavaScript's `||` and string conversion on it, the stored upload name,
 * the sheet columns by field, the reply, and the JSON text and JSONP
 * wrapping of ContentService outputs.
 *
 * SpreadsheetApp, DriveApp, JSON.parse and the clock are not modelled:
 * what they give or throw is a parameter (PostEnv).
 */
module ScriptCommon {
  import opened Common

  // ---------------------------------------------------------------------------
  // The parsed record
  // ---------------------------------------------------------------------------

  /** A property value of the parsed JSON body: arrays are of strings, numbers are integers. */
  datatype Json = JNull | JBool(b: bool) | JNum(n: int) | JStr(s: string) | JArr(items: seq<string>) | JObj

  /** The object JSON.parse returned; an absent key reads as undefined. */
  type Record = map<string, Json>

  predicate JsonTruthy(v: Json)
  {
    match v
    case JNull => false
    case JBool(b) => b
    case JNum(n) => n != 0
    case JStr(s) => s != ""
    case JArr(_) => true
    case JObj => true
  }

  /** `data.k` is truthy. */
  predicate Has(data: Record, k: string)
  {
    k in data && JsonTruthy(data[k])
  }

  /**
   * `data.k || ''`: the cell a sheet row takes for a field, which is never
   * falsy unless it is the empty text standing for a missing, empty, zero,
   * false or null field.
   */
  function OrEmpty(data: Record, k: string): (r: Json)
    ensures Has(data, k) ==> r == data[k]
    ensures !Has(data, k) ==> r == JStr("")
    ensures JsonTruthy(r) <==> Has(data, k)
    ensures !JsonTruthy(r) ==> r == JStr("")
  {
    if Has(data, k) then data[k] else JStr("")
  }

  /** String(v), as a template literal renders a value. */
  function JsString(v: Json): string
  {
    match v
    case JNull => "null"
    case JBool(b) => if b then "true" else "false"
    case JNum(n) => if n < 0 then "-" + Decimal(-n) else Decimal(n)
    case JStr(s) => s
    case JArr(items) => Join(items, ",")
    case JObj => "[object Object]"
  }

  // ---------------------------------------------------------------------------
  // The stored upload name
  // ---------------------------------------------------------------------------

  /** `toISOString().replace(/[:.]/g, '-')`. */
  function Sanitize(t: string): (r: string)
    ensures |r| == |t|
    ensures forall i :: 0 <= i < |r| ==> r[i] != ':' && r[i] != '.'
    ensures forall i :: 0 <= i < |t| && t[i] != ':' && t[i] != '.' ==> r[i] == t[i]
  {
    seq(|t|, i requires 0 <= i < |t| => if t[i] == ':' || t[i] == '.' then '-' else t[i])
  }

  /** A timestamp is left alone exactly when it has nothing to replace; so sanitizing twice is sanitizing once. */
  lemma SanitizeFixedPoints(t: string)
    ensures Sanitize(t) == t <==> forall i :: 0 <= i < |t| ==> t[i] != ':' && t[i] != '.'
    ensures Sanitize(Sanitize(t)) == Sanitize(t)
  {
    var r := Sanitize(t);
    if r == t {
      forall i | 0 <= i < |t| ensures t[i] != ':' && t[i] != '.' {
        assert r[i] == t[i];
      }
    }
  }

  /** `data.name || 'Unknown'`, as text. */
  function Owner(data: Record): string
  {
    if Has(data, "name") then JsString(data["name"]) else "Unknown"
  }

  /** The Drive file name: owner, sanitized upload time and original name, joined by `_`. */
  function UploadName(data: Record, uploadTime: string, fileName: Json): string
  {
    Owner(data) + "_" + Sanitize(uploadTime) + "_" + JsString(fileName)
  }

  /** The text before the first `c` and the text after it; None when `c` does not occur. */
  function SplitFirst(s: string, c: char): (r: Option<(string, string)>)
    ensures r.Some? ==> s == r.value.0 + [c] + r.value.1 && c !in r.value.0
    ensures r.None? ==> c !in s
  {
    if |s| == 0 then None
    else if s[0] == c then Some(([], s[1..]))
    else match SplitFirst(s[1..], c)
      case None => None
      case Some(p) => Some(([s[0]] + p.0, p.1))
  }

  /** Splitting at the first `c` recovers a prefix free of `c`. */
  lemma {:induction false} SplitFirstOf(a: string, c: char, b: string)
    requires c !in a
    ensures SplitFirst(a + [c] + b, c) == Some((a, b))
  {
    if |a| == 0 {
      assert a + [c] + b == [c] + b;
    } else {
      assert (a + [c] + b)[1..] == a[1..] + [c] + b;
      SplitFirstOf(a[1..], c, b);
      assert [a[0]] + a[1..] == a;
    }
  }

  /**
   * When the owner has no underscore, the stored name splits back into the
   * owner, the sanitized upload time and the original file name.
   */
  lemma UploadNameSplits(data: Record, uploadTime: string, fileName: Json)
    requires '_' !in Owner(data) && '_' !in uploadTime
    ensures var n := UploadName(data, uploadTime, fileName);
      && SplitFirst(n, '_').Some?
      && SplitFirst(n, '_').value.0 == Owner(data)
      && SplitFirst(SplitFirst(n, '_').value.1, '_') == Some((Sanitize(uploadTime), JsString(fileName)))
  {
    var o := Owner(data);
    var t := Sanitize(uploadTime);
    var f := JsString(fileName);
    assert '_' !in t by {
      forall i | 0 <= i < |t| ensures t[i] != '_' {
        assert uploadTime[i] != '_';
      }
    }
    assert UploadName(data, uploadTime, fileName) == o + ['_'] + (t + ['_'] + f);
    SplitFirstOf(o, '_', t + ['_'] + f);
    SplitFirstOf(t, '_', f);
  }

  // ---------------------------------------------------------------------------
  // doPost's environment and result
  // ---------------------------------------------------------------------------

  /** What the Drive upload gives: the file's URL, or the text of what it threw. */
  datatype UploadEffect = Uploaded(url: string) | UploadThrew(error: string)

  /**
   * Everything doPost gets from outside: whether opening the sheet throws,
   * what JSON.parse gives, the clock at the upload and at the row, the
   * upload's effect and whether appendRow throws. Error texts are
   * `error.toString()`.
   */
  datatype PostEnv = PostEnv(
    openError: Option<string>,
    parsed: Result<Record>,
    uploadTime: string,
    upload: UploadEffect,
    rowTime: string,
    appendError: Option<string>)

  /** The JSON reply: `{success: true, message, fileUploaded}` or `{success: false, message}`. */
  datatype PostReply = Accepted(message: string, fileUploaded: bool) | Refused(message: string)

  /** The name an upload was attempted under, the row appended, and the reply. */
  datatype PostResult = PostResult(uploadedAs: Option<string>, row: Option<seq<Json>>, reply: PostReply)

  const SubmittedMessage: string := "Form submitted successfully"
  const FileSuffix: string := " with file upload"
  const ErrorPrefix: string := "Error: "
  const UploadFailedPrefix: string := "File upload failed: "
  const StatusValue: string := "Submission"

  /** The success reply for a given File Upload cell: a non-empty cell, even a failure text, counts as an upload. */
  function AcceptedWith(fileInfo: string): (r: PostReply)
    ensures r.Accepted?
    ensures r.fileUploaded <==> fileInfo != ""
    ensures SubmittedMessage <= r.message
    ensures r.message == SubmittedMessage <==> fileInfo == ""
    ensures fileInfo != "" ==> r.message == SubmittedMessage + FileSuffix
  {
    var flag := fileInfo != "";
    Accepted(SubmittedMessage + (if flag then FileSuffix else ""), flag)
  }

  lemma PrefixOfConcat(a: string, b: string)
    ensures a <= a + b
  {
  }

  /** The sheet columns filled straight from a record field, by header. */
  const ColumnField: map<string, string> := map[
    "Name" := "name",
    "Company" := "company",
    "Project Type" := "projectType",
    "Budget" := "budget",
    "Message" := "message",
    "Contact Method" := "contactMethod",
    "Email" := "email",
    "Phone" := "phone",
    "Custom Improvement" := "customImprovement",
    "Start Date" := "startDate",
    "AB Test Title" := "ab_test_title",
    "Form Type" := "form_type",
    "Source URL" := "url"]

  /**
   * What a sheet row holds under header `h`: a field column holds
   * `data.field || ''`, Status holds "Submission", and the Improvements,
   * File Upload and Timestamp columns hold what the caller computed.
   */
  ghost predicate CellMeans(h: string, cell: Json, data: Record, improvements: Json, fileInfo: string, rowTime: string)
  {
    && (h in ColumnField ==> cell == OrEmpty(data, ColumnField[h]))
    && (h == "Status" ==> cell == JStr(StatusValue))
    && (h == "Improvements" ==> cell == improvements)
    && (h == "File Upload" ==> cell == JStr(fileInfo))
    && (h == "Timestamp" ==> cell == JStr(rowTime))
  }

  /** A header row whose every name is a column this model knows, each once. */
  ghost predicate KnownDistinct(headers: seq<string>)
  {
    && (forall i :: 0 <= i < |headers| ==>
          headers[i] in ColumnField || headers[i] in {"Status", "Improvements", "File Upload", "Timestamp"})
    && (forall i, j :: 0 <= i < j < |headers| ==> headers[i] != headers[j])
  }

  // ---------------------------------------------------------------------------
  // ContentService text: JSON.stringify of flat objects and JSONP
  // ---------------------------------------------------------------------------

  datatype Mime = JsonMime | JavascriptMime

  /** A ContentService.TextOutput: its text and its MIME type. */
  datatype TextOutput = TextOutput(content: string, mime: Mime)

  /** A property of a flat object passed to JSON.stringify. */
  datatype JsonField = BoolField(name: string, b: bool) | TextField(name: string, text: string)

  function HexDigit(d: nat): char
    requires d < 16
  {
    "0123456789abcdef"[d]
  }

  function HexValue(c: char): (r: nat)
    ensures r < 16
    ensures r == 0 <==> c == '0' || !('0' <= c <= '9' || 'a' <= c <= 'f' || 'A' <= c <= 'F')
  {
    if '0' <= c <= '9' then (c as int - '0' as int) as nat
    else if 'a' <= c <= 'f' then (c as int - 'a' as int + 10) as nat
    else if 'A' <= c <= 'F' then (c as int - 'A' as int + 10) as nat
    else 0
  }

  /** The letter of a two-character escape, for the characters JSON.stringify writes that way. */
  function ShortEscape(c: char): Option<char>
  {
    if c == '"' then Some('"')
    else if c == '\\' then Some('\\')
    else if c == '\n' then Some('n')
    else if c == '\r' then Some('r')
    else if c == '\t' then Some('t')
    else if c == '\U{8}' then Some('b')
    else if c == '\U{C}' then Some('f')
    else None
  }

  /** The character a two-character escape stands for. */
  function Unescaped(x: char): char
  {
    if x == 'n' then '\n'
    else if x == 'r' then '\r'
    else if x == 't' then '\t'
    else if x == 'b' then '\U{8}'
    else if x == 'f' then '\U{C}'
    else x
  }

  /** How JSON.stringify writes one character inside a string literal. */
  function EscapeChar(c: char): (r: string)
    ensures |r| >= 1
    ensures c != '"' && c != '\\' && c as int >= 0x20 ==> r == [c]
  {
    match ShortEscape(c)
    case Some(x) => ['\\', x]
    case None =>
      if c as int < 0x20 then ['\\', 'u', '0', '0', HexDigit(c as int / 16), HexDigit(c as int % 16)]
      else [c]
  }

  function Escape(s: string): string
  {
    if |s| == 0 then "" else EscapeChar(s[0]) + Escape(s[1..])
  }

  /**
   * Reading a string literal's body back, for the escapes JSON.stringify
   * writes: a two-character escape, or `\uXXXX` read as four hex digits. A
   * `\u` escape naming a lone surrogate, which a Dafny char cannot hold,
   * reads as nothing; malformed escapes are not rejected.
   */
  function Unescape(s: string): string
  {
    if |s| == 0 then ""
    else if s[0] != '\\' || |s| < 2 then [s[0]] + Unescape(s[1..])
    else if s[1] == 'u' && |s| >= 6 then
      var n := 4096 * HexValue(s[2]) + 256 * HexValue(s[3]) + 16 * HexValue(s[4]) + HexValue(s[5]);
      (if n < 0xD800 || 0xE000 <= n then [n as char] else "") + Unescape(s[6..])
    else [Unescaped(s[1])] + Unescape(s[2..])
  }

  lemma ShortEscapeInverse(c: char)
    requires ShortEscape(c).Some?
    ensures ShortEscape(c).value != 'u' && Unescaped(ShortEscape(c).value) == c
  {
  }

  lemma UnescapePlain(c: char, rest: string)
    requires c != '\\'
    ensures Unescape([c] + rest) == [c] + Unescape(rest)
  {
    assert ([c] + rest)[1..] == rest;
  }

  lemma UnescapeShort(x: char, rest: string)
    requires x != 'u'
    ensures Unescape(['\\', x] + rest) == [Unescaped(x)] + Unescape(rest)
  {
    assert (['\\', x] + rest)[2..] == rest;
  }

  lemma UnescapeHex(c: char, rest: string)
    requires c as int < 0x20
    ensures Unescape(['\\', 'u', '0', '0', HexDigit(c as int / 16), HexDigit(c as int % 16)] + rest) == [c] + Unescape(rest)
  {
    var hi := c as int / 16;
    var lo := c as int % 16;
    var s := ['\\', 'u', '0', '0', HexDigit(hi), HexDigit(lo)] + rest;
    assert s[1] == 'u' && s[2] == '0' && s[3] == '0' && s[4] == HexDigit(hi) && s[5] == HexDigit(lo);
    assert HexValue(HexDigit(hi)) == hi;
    assert HexValue(HexDigit(lo)) == lo;
    assert s[6..] == rest;
  }

  /** Reading back one escaped character. */
  lemma UnescapeChar(c: char, rest: string)
    ensures Unescape(EscapeChar(c) + rest) == [c] + Unescape(rest)
  {
    match ShortEscape(c)
    case Some(x) =>
      ShortEscapeInverse(c);
      UnescapeShort(x, rest);
    case None =>
      if c as int < 0x20 {
        UnescapeHex(c, rest);
      } else {
        UnescapePlain(c, rest);
      }
  }

  /** JSON.parse reads back exactly the string JSON.stringify wrote. */
  lemma {:induction false} EscapeRoundTrip(s: string)
    ensures Unescape(Escape(s)) == s
  {
    if |s| > 0 {
      assert Escape(s) == EscapeChar(s[0]) + Escape(s[1..]);
      UnescapeChar(s[0], Escape(s[1..]));
      EscapeRoundTrip(s[1..]);
      assert [s[0]] + s[1..] == s;
    }
  }

  function Quote(s: string): string
  {
    "\"" + Escape(s) + "\""
  }

  function FieldText(f: JsonField): string
  {
    Quote(f.name) + ":" + (match f case BoolField(_, b) => (if b then "true" else "false") case TextField(_, t) => Quote(t))
  }

  function FieldsText(fs: seq<JsonField>): string
  {
    if |fs| == 0 then "" else if |fs| == 1 then FieldText(fs[0]) else FieldText(fs[0]) + "," + FieldsText(fs[1..])
  }

  /** JSON.stringify of a flat object, without whitespace. */
  function Stringify(fs: seq<JsonField>): (r: string)
    ensures |r| >= 2 && r[0] == '{' && r[|r| - 1] == '}'
  {
    "{" + FieldsText(fs) + "}"
  }

  /** `callback + '(' + json + ');'`. */
  function Jsonp(callback: string, json: string): string
  {
    callback + "(" + json + ");"
  }

  /** What a JSONP client strips off the text before reading the JSON. */
  function Unwrap(callback: string, text: string): Option<string>
  {
    var n := |callback| + 1;
    if |text| >= n + 2 && text[..n] == callback + "(" && text[|text| - 2..] == ");" then
      Some(text[n..|text| - 2])
    else None
  }

  /** A JSON object on its own is not a JSONP reply: it ends in `}`, not `);`. */
  lemma ObjectIsNotJsonp(callback: string, text: string)
    requires |text| >= 1 && text[|text| - 1] == '}'
    ensures Unwrap(callback, text).None?
  {
    if |text| >= 2 {
      assert text[|text| - 2..][1] == '}';
    }
  }

  lemma JsonpUnwraps(callback: string, json: string)
    ensures Unwrap(callback, Jsonp(callback, json)) == Some(json)
  {
    var text := Jsonp(callback, json);
    var n := |callback| + 1;
    assert text == (callback + "(") + json + ");";
    assert text[..n] == callback + "(";
    assert text[|text| - 2..] == ");";
    assert text[n..|text| - 2] == json;
  }
}
