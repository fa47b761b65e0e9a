/**
 * The form side of the A/B test (js/form-ab-integration.js): which forms get
 * a submit listener, which handler a submitted form goes to, the checks each
 * handler makes before sending, and how sendToServer turns the submitted
 * FormData into the one record the Sheets integration receives.
 *
 * The DOM is reduced to what the decisions read: form ids and markers, the
 * number of checked improvement boxes, the values of required inputs, and
 * whether a submit button exists. The file input is reduced to the chosen
 * file's name, type and base64 text (None when FileReader fails).
 */
module FormIntegration {
  import opened Common
  import ABTesting

  // ---------------------------------------------------------------------------
  // Listener set-up
  // ---------------------------------------------------------------------------

  /** A form element: its id, the data-ab-enhanced marker and the submit listeners enhanceForm added. */
  class FormElement {
    const id: string
    var enhanced: bool
    var listeners: nat

    constructor (id: string, enhanced: bool)
      ensures this.id == id && this.enhanced == enhanced && listeners == 0
    {
      this.id := id;
      this.enhanced := enhanced;
      listeners := 0;
    }
  }

  /** Sets the marker and adds one submit listener. */
  method EnhanceForm(form: FormElement)
    modifies form
    ensures form.enhanced
    ensures form.listeners == old(form.listeners) + 1
  {
    form.enhanced := true;
    form.listeners := form.listeners + 1;
  }

  /** Every element the set-up pass can touch. */
  function Involved(automation: FormElement?, contacts: seq<FormElement>, all: seq<FormElement>): set<FormElement>
  {
    (if automation != null then {automation} else {}) + (set f | f in contacts) + (set f | f in all)
  }

  /** contactForms.forEach(enhanceForm): every listed form once per occurrence. */
  method EnhanceEach(forms: seq<FormElement>)
    modifies set f | f in forms
    ensures forall f :: f in forms ==> f.enhanced
    ensures forall f :: f in forms ==> f.listeners == old(f.listeners) + multiset(forms)[f]
  {
    for i := 0 to |forms|
      invariant forall f :: f in forms ==> f.listeners == old(f.listeners) + multiset(forms[..i])[f]
      invariant forall f :: f in forms[..i] ==> f.enhanced
    {
      assert forms[..i + 1] == forms[..i] + [forms[i]];
      EnhanceForm(forms[i]);
    }
    assert forms[..|forms|] == forms;
  }

  /** allForms.forEach: a form is enhanced only when it does not carry the marker yet. */
  method EnhanceUnmarked(forms: seq<FormElement>)
    modifies set f | f in forms
    ensures forall f :: f in forms ==> f.enhanced
    ensures forall f :: f in forms ==> f.listeners == old(f.listeners) + (if old(f.enhanced) then 0 else 1)
  {
    for i := 0 to |forms|
      invariant forall f :: f in forms ==>
        f.listeners == old(f.listeners) + (if f in forms[..i] && !old(f.enhanced) then 1 else 0)
      invariant forall f :: f in forms ==> (f.enhanced <==> old(f.enhanced) || f in forms[..i])
    {
      assert forms[..i + 1] == forms[..i] + [forms[i]];
      if !forms[i].enhanced {
        EnhanceForm(forms[i]);
      }
    }
    assert forms[..|forms|] == forms;
  }

  /**
   * setupFormHandlers: the automation form and each contact form are
   * enhanced unconditionally; the pass over every form then enhances only
   * those not yet marked. `automation` is getElementById('automation-form'),
   * `contacts` the contact-form query, `all` every form of the page.
   */
  method SetupFormHandlers(automation: FormElement?, contacts: seq<FormElement>, all: seq<FormElement>)
    modifies Involved(automation, contacts, all)
    ensures forall f :: f in all ==> f.enhanced
    ensures forall f :: f in Involved(automation, contacts, all) ==>
      f.listeners == old(f.listeners) + (if f == automation then 1 else 0) + multiset(contacts)[f]
                     + (if f in all && !old(f.enhanced) && f != automation && f !in contacts then 1 else 0)
    ensures forall f :: f in all && f != automation && f !in contacts ==>
      f.listeners == old(f.listeners) + (if old(f.enhanced) then 0 else 1)
  {
    if automation != null {
      EnhanceForm(automation);
    }
    label Contacts:
    EnhanceEach(contacts);
    label Generic:
    EnhanceUnmarked(all);
    assert forall f :: f in all ==>
      (old@Generic(f.enhanced) <==> old(f.enhanced) || f == automation || f in contacts);
  }

  // ---------------------------------------------------------------------------
  // Dispatch and the handlers' checks
  // ---------------------------------------------------------------------------

  datatype Handler = AutomationHandler | ContactHandler | GenericHandler

  /** `form.id || 'unknown-form'`. */
  function EffectiveId(formId: string): string
  {
    if formId == "" then "unknown-form" else formId
  }

  /** handleFormSubmission: the exact automation id, then any id containing "contact", then the rest. */
  function Dispatch(formId: string): (h: Handler)
    ensures h == AutomationHandler <==> formId == "automation-form"
    ensures h == ContactHandler <==>
      formId != "automation-form" && exists i :: OccursAt(EffectiveId(formId), "contact", i)
    ensures h == GenericHandler <==>
      formId != "automation-form" && forall i :: !OccursAt(EffectiveId(formId), "contact", i)
    ensures formId == "" ==> h == GenericHandler
  {
    var id := EffectiveId(formId);
    ContainsIff(id, "contact");
    NoContactInUnknown();
    if id == "automation-form" then AutomationHandler
    else if Contains(id, "contact") then ContactHandler
    else GenericHandler
  }

  /** 'unknown-form' has no 'c', so it never contains "contact". */
  lemma NoContactInUnknown()
    ensures forall i :: !OccursAt("unknown-form", "contact", i)
  {
    var s := "unknown-form";
    forall i | 0 <= i < |s| ensures s[i] != 'c' {
    }
    forall i ensures !OccursAt(s, "contact", i) {
      if 0 <= i && i + 7 <= |s| {
        assert s[i..i + 7][0] == s[i];
      }
    }
  }

  /**
   * handleContactForm's loop over the required inputs: each input is
   * flagged (red border) exactly when its trimmed value is empty, and the
   * form proceeds only when none is.
   */
  method ValidateRequired(values: seq<string>) returns (proceed: bool, flagged: seq<bool>)
    ensures |flagged| == |values|
    ensures forall i :: 0 <= i < |values| ==> (flagged[i] <==> IsBlank(values[i]))
    ensures proceed <==> forall i :: 0 <= i < |values| ==> !IsBlank(values[i])
  {
    proceed := true;
    flagged := [];
    for i := 0 to |values|
      invariant |flagged| == i
      invariant forall j :: 0 <= j < i ==> (flagged[j] <==> IsBlank(values[j]))
      invariant proceed <==> forall j :: 0 <= j < i ==> !IsBlank(values[j])
    {
      TrimEmptyIffBlank(values[i]);
      if Trim(values[i]) == "" {
        proceed := false;
        flagged := flagged + [true];
      } else {
        flagged := flagged + [false];
      }
    }
  }

  const NoImprovementAlert: string := "Please select at least one area that needs improvement."
  const RequiredFieldsAlert: string := "Please fill in all required fields."

  /** The TypeError raised by `submitBtn.textContent` when #submit-form is missing. */
  const MissingButtonError: string := "TypeError: Cannot read properties of null (reading 'textContent')"

  /** The TypeError raised in the automation timer by `classList` when #confirmation is missing. */
  const MissingConfirmationError: string := "TypeError: Cannot read properties of null (reading 'classList')"

  /** What a submitted form leads to. */
  datatype Handling =
    | Blocked(alert: string)          // an alert, nothing sent
    | Threw(error: string)            // an exception escapes the handler, nothing sent
    | Idle                            // a valid contact form without a submit button: nothing happens
    | Send(formType: string)          // sendToServer(formData, formType) runs after the delay

  /**
   * What handleFormSubmission leads to. `checked` is the number of checked
   * improvement boxes on the page, `required` the values of the form's
   * required inputs, `automationButton` and `confirmation` whether
   * #submit-form and #confirmation exist, `contactButton` whether the form
   * holds a contact submit button. The automation handler's timer reveals
   * #confirmation before it sends, so a missing one throws first.
   */
  ghost function Decision(formId: string, checked: nat, required: seq<string>,
                          automationButton: bool, confirmation: bool, contactButton: bool): Handling
  {
    match Dispatch(formId)
    case AutomationHandler =>
      if checked == 0 then Blocked(NoImprovementAlert)
      else if !automationButton then Threw(MissingButtonError)
      else if !confirmation then Threw(MissingConfirmationError)
      else Send("automation-form")
    case ContactHandler =>
      if exists i :: 0 <= i < |required| && IsBlank(required[i]) then Blocked(RequiredFieldsAlert)
      else if contactButton then Send("contact-form")
      else Idle
    case GenericHandler => Send("generic-form")
  }

  /** The form type a handler sends under. */
  function FormType(h: Handler): string
  {
    match h
    case AutomationHandler => "automation-form"
    case ContactHandler => "contact-form"
    case GenericHandler => "generic-form"
  }

  /**
   * A form is sent only under its own handler's form type and only once that
   * handler's checks pass: for the automation form a checked improvement and
   * both elements, for a contact form no blank required value and a button.
   */
  lemma SendMeansChecksPassed(formId: string, checked: nat, required: seq<string>,
                              automationButton: bool, confirmation: bool, contactButton: bool)
    ensures var h := Decision(formId, checked, required, automationButton, confirmation, contactButton);
      && (h.Send? ==> h.formType == FormType(Dispatch(formId)))
      && (h.Send? && Dispatch(formId) == AutomationHandler ==> checked > 0 && automationButton && confirmation)
      && (h.Send? && Dispatch(formId) == ContactHandler ==>
            contactButton && forall i :: 0 <= i < |required| ==> !IsBlank(required[i]))
      && (Dispatch(formId) == GenericHandler ==> h == Send("generic-form"))
  {
  }

  /**
   * The handlers reached from handleFormSubmission; only the contact handler
   * validates and marks inputs (`flagged`).
   */
  method HandleFormSubmission(formId: string, checked: nat, required: seq<string>,
                              automationButton: bool, confirmation: bool, contactButton: bool)
    returns (h: Handling, flagged: Option<seq<bool>>)
    ensures h == Decision(formId, checked, required, automationButton, confirmation, contactButton)
    ensures Dispatch(formId) != ContactHandler ==> flagged.None?
    ensures Dispatch(formId) == ContactHandler ==>
      && flagged.Some? && |flagged.value| == |required|
      && (forall i :: 0 <= i < |required| ==> (flagged.value[i] <==> IsBlank(required[i])))
  {
    flagged := None;
    match Dispatch(formId)
    case AutomationHandler =>
      if checked == 0 {
        h := Blocked(NoImprovementAlert);
      } else if !automationButton {
        h := Threw(MissingButtonError);
      } else if !confirmation {
        h := Threw(MissingConfirmationError);
      } else {
        h := Send("automation-form");
      }
    case ContactHandler =>
      var proceed, marks := ValidateRequired(required);
      flagged := Some(marks);
      if !proceed {
        h := Blocked(RequiredFieldsAlert);
      } else if contactButton {
        h := Send("contact-form");
      } else {
        h := Idle;
      }
    case GenericHandler =>
      h := Send("generic-form");
  }

  // ---------------------------------------------------------------------------
  // sendToServer: from FormData to the record sent to the Sheets integration
  // ---------------------------------------------------------------------------

  /** FormData entries as the values Object.fromEntries gives them. */
  function AsValues(fd: seq<(string, string)>): seq<(string, JsVal)>
  {
    seq(|fd|, i requires 0 <= i < |fd| => (fd[i].0, Str(fd[i].1)))
  }

  /** What Object.fromEntries(formData) holds under k: the last value appended, if any. */
  function Submitted(fd: seq<(string, string)>, k: string): Option<JsVal>
  {
    var all := GetAll(fd, k);
    if |all| == 0 then None else Some(Str(all[|all| - 1]))
  }

  /** The submitted text under k, or "" when nothing was appended under k. */
  function LastSubmitted(fd: seq<(string, string)>, k: string): string
  {
    var all := GetAll(fd, k);
    if |all| == 0 then "" else all[|all| - 1]
  }

  lemma {:induction false} GetAllAsValues(fd: seq<(string, string)>, k: string)
    ensures |GetAll(AsValues(fd), k)| == |GetAll(fd, k)|
    ensures forall i :: 0 <= i < |GetAll(fd, k)| ==> GetAll(AsValues(fd), k)[i] == Str(GetAll(fd, k)[i])
  {
    if |fd| > 0 {
      var n := |fd| - 1;
      assert AsValues(fd)[..n] == AsValues(fd[..n]);
      GetAllAsValues(fd[..n], k);
    }
  }

  /** Object.fromEntries over the form's entries keeps, under every name, the last value submitted. */
  lemma FromFormData(fd: seq<(string, string)>, k: string)
    ensures Get(FromEntries(AsValues(fd)), k) == Submitted(fd, k)
  {
    FromEntriesKeepsLast(AsValues(fd), k);
    GetAllAsValues(fd, k);
  }

  /** The file input: nothing chosen, or a file with its base64 text (None when reading it fails). */
  datatype FileSelection = NoFile | Chosen(name: string, mimeType: string, encoded: Option<string>)

  predicate EncodeFails(file: FileSelection)
  {
    file.Chosen? && file.encoded.None?
  }

  const FileKeys: set<string> := {"fileName", "fileContent", "fileType"}

  /**
   * The `data` object of sendToServer once it is ready to be mapped: the
   * form's entries, the whole checkbox group under `improvements`, and the
   * chosen file's fields.
   */
  function Prepared(fd: seq<(string, string)>, file: FileSelection): Obj<JsVal>
    requires !EncodeFails(file)
  {
    var data := Set(FromEntries(AsValues(fd)), "improvements", List(GetAll(fd, "improvements")));
    if file.Chosen? then
      Set(Set(Set(data, "fileName", Str(file.name)), "fileContent", Str(file.encoded.value)), "fileType", Str(file.mimeType))
    else data
  }

  /**
   * Under `improvements` the prepared data holds every checked value, under
   * the file fields the chosen file, and under every other name the last
   * value the form submitted.
   */
  lemma PreparedGet(fd: seq<(string, string)>, file: FileSelection, k: string)
    requires !EncodeFails(file)
    ensures k == "improvements" ==> Get(Prepared(fd, file), k) == Some(List(GetAll(fd, k)))
    ensures file.Chosen? && k == "fileName" ==> Get(Prepared(fd, file), k) == Some(Str(file.name))
    ensures file.Chosen? && k == "fileContent" ==> Get(Prepared(fd, file), k) == Some(Str(file.encoded.value))
    ensures file.Chosen? && k == "fileType" ==> Get(Prepared(fd, file), k) == Some(Str(file.mimeType))
    ensures k != "improvements" && !(file.Chosen? && k in FileKeys) ==> Get(Prepared(fd, file), k) == Submitted(fd, k)
  {
    FromFormData(fd, k);
  }

  /** The first non-empty string of the list, or "" when every one is empty. */
  function FirstNonEmpty(vals: seq<string>): (r: string)
    ensures r == "" <==> forall i :: 0 <= i < |vals| ==> vals[i] == ""
    ensures r != "" ==> exists i :: 0 <= i < |vals| && vals[i] == r && forall j :: 0 <= j < i ==> vals[j] == ""
  {
    if |vals| == 0 then ""
    else if vals[0] != "" then vals[0]
    else
      var r := FirstNonEmpty(vals[1..]);
      assert forall i :: 1 <= i < |vals| ==> vals[i] == vals[1..][i - 1];
      if r != "" then
        ghost var i :| 0 <= i < |vals[1..]| && vals[1..][i] == r && forall j :: 0 <= j < i ==> vals[1..][j] == "";
        assert vals[i + 1] == r;
        r
      else r
  }

  /** The record mappedData, in the order of its keys. */
  datatype Submission = Submission(
    name: JsVal, email: JsVal, phone: JsVal, company: JsVal, projectType: JsVal,
    budget: JsVal, timeline: JsVal, improvements: JsVal, customImprovement: JsVal,
    startDate: JsVal, message: JsVal, contactMethod: JsVal, fileName: JsVal,
    fileContent: JsVal, fileType: JsVal, abTestVariation: JsVal, abTestTitle: JsVal,
    formType: string, url: string)

  /** `Array.isArray(v) ? v.join(', ') : (v || '')`. */
  function JoinedImprovements(v: Option<JsVal>): JsVal
  {
    if v.Some? && v.value.List? then Str(Join(v.value.items, ", ")) else Or(v, Str(""))
  }

  /** The mappedData object literal over the prepared data: one `||` chain per field. */
  function MapFields(data: Obj<JsVal>, formType: string, href: string): Submission
  {
    Submission(
      Or(Get(data, "firstname"), Or(Get(data, "fullname"), Or(Get(data, "name"), Str("")))),
      Or(Get(data, "email"), Str("")),
      Or(Get(data, "phone-number"), Or(Get(data, "phone"), Str(""))),
      Or(Get(data, "company"), Str("")),
      Or(Get(data, "role"), Or(Get(data, "projectType"), Str(""))),
      Or(Get(data, "budget"), Str("")),
      Or(Get(data, "timeline"), Str("")),
      JoinedImprovements(Get(data, "improvements")),
      Or(Get(data, "custom-improvement"), Str("")),
      Or(Get(data, "start-date"), Or(Get(data, "startDate"), Str(""))),
      Or(Get(data, "kpi"), Or(Get(data, "message"), Str(""))),
      Or(Get(data, "contact-method"), Str("")),
      Or(Get(data, "fileName"), Str("")),
      Or(Get(data, "fileContent"), Str("")),
      Or(Get(data, "fileType"), Str("")),
      Or(Get(data, "ab_test_variation"), Str("")),
      Or(Get(data, "ab_test_title"), Str("")),
      formType,
      href)
  }

  /** The names of the mapped record's fields the form itself supplies. */
  const FormKeys: set<string> := {
    "firstname", "fullname", "name", "email", "phone-number", "phone", "company", "role", "projectType",
    "budget", "timeline", "custom-improvement", "start-date", "startDate", "kpi", "message",
    "contact-method", "ab_test_variation", "ab_test_title"}

  /** Under each of those names, the data holds what the form submitted. */
  ghost predicate KeepsSubmitted(data: Obj<JsVal>, fd: seq<(string, string)>)
  {
    forall k :: k in FormKeys ==> Get(data, k) == Submitted(fd, k)
  }

  /** sendToServer sets only improvements and the file fields, so the form's own fields survive. */
  lemma PreparedKeepsSubmitted(fd: seq<(string, string)>, file: FileSelection)
    requires !EncodeFails(file)
    ensures KeepsSubmitted(Prepared(fd, file), fd)
  {
    assert forall k :: k in FormKeys ==> k != "improvements" && k !in FileKeys;
    forall k | k in FormKeys ensures Get(Prepared(fd, file), k) == Submitted(fd, k) {
      PreparedGet(fd, file, k);
    }
  }

  /** One link of a `||` chain over a submitted name: its text when non-empty, else the rest. */
  lemma OrSubmitted(fd: seq<(string, string)>, k: string, rest: JsVal)
    ensures Or(Submitted(fd, k), rest) == if LastSubmitted(fd, k) != "" then Str(LastSubmitted(fd, k)) else rest
  {
  }

  /** A chain of two aliases yields the first non-empty submitted value, or ''. */
  lemma Chain2(fd: seq<(string, string)>, a: string, b: string)
    ensures Or(Submitted(fd, a), Or(Submitted(fd, b), Str("")))
            == Str(FirstNonEmpty([LastSubmitted(fd, a), LastSubmitted(fd, b)]))
  {
    var vals := [LastSubmitted(fd, a), LastSubmitted(fd, b)];
    assert vals[1..] == [LastSubmitted(fd, b)];
    assert vals[1..][1..] == [];
  }

  /** A chain of three aliases yields the first non-empty submitted value, or ''. */
  lemma Chain3(fd: seq<(string, string)>, a: string, b: string, c: string)
    ensures Or(Submitted(fd, a), Or(Submitted(fd, b), Or(Submitted(fd, c), Str(""))))
            == Str(FirstNonEmpty([LastSubmitted(fd, a), LastSubmitted(fd, b), LastSubmitted(fd, c)]))
  {
    var vals := [LastSubmitted(fd, a), LastSubmitted(fd, b), LastSubmitted(fd, c)];
    assert vals[1..] == [LastSubmitted(fd, b), LastSubmitted(fd, c)];
    Chain2(fd, b, c);
  }

  /**
   * The fields of the mapped record the form supplies: each is the first
   * non-empty value submitted under its aliases, tried in the order of the
   * `||` chain, or '' when there is none; form_type and url are the arguments.
   */
  lemma FormFieldsResolve(data: Obj<JsVal>, fd: seq<(string, string)>, formType: string, href: string)
    requires KeepsSubmitted(data, fd)
    ensures var m := MapFields(data, formType, href);
      && m.name == Str(FirstNonEmpty([LastSubmitted(fd, "firstname"), LastSubmitted(fd, "fullname"), LastSubmitted(fd, "name")]))
      && m.email == Str(LastSubmitted(fd, "email"))
      && m.phone == Str(FirstNonEmpty([LastSubmitted(fd, "phone-number"), LastSubmitted(fd, "phone")]))
      && m.company == Str(LastSubmitted(fd, "company"))
      && m.projectType == Str(FirstNonEmpty([LastSubmitted(fd, "role"), LastSubmitted(fd, "projectType")]))
      && m.budget == Str(LastSubmitted(fd, "budget"))
      && m.timeline == Str(LastSubmitted(fd, "timeline"))
      && m.customImprovement == Str(LastSubmitted(fd, "custom-improvement"))
      && m.startDate == Str(FirstNonEmpty([LastSubmitted(fd, "start-date"), LastSubmitted(fd, "startDate")]))
      && m.message == Str(FirstNonEmpty([LastSubmitted(fd, "kpi"), LastSubmitted(fd, "message")]))
      && m.contactMethod == Str(LastSubmitted(fd, "contact-method"))
      && m.abTestVariation == Str(LastSubmitted(fd, "ab_test_variation"))
      && m.abTestTitle == Str(LastSubmitted(fd, "ab_test_title"))
      && m.formType == formType && m.url == href
  {
    Chain3(fd, "firstname", "fullname", "name");
    Chain2(fd, "phone-number", "phone");
    Chain2(fd, "role", "projectType");
    Chain2(fd, "start-date", "startDate");
    Chain2(fd, "kpi", "message");
    OrSubmitted(fd, "email", Str(""));
    OrSubmitted(fd, "company", Str(""));
    OrSubmitted(fd, "budget", Str(""));
    OrSubmitted(fd, "timeline", Str(""));
    OrSubmitted(fd, "custom-improvement", Str(""));
    OrSubmitted(fd, "contact-method", Str(""));
    OrSubmitted(fd, "ab_test_variation", Str(""));
    OrSubmitted(fd, "ab_test_title", Str(""));
  }

  /**
   * The fields sendToServer fills itself: improvements is the whole
   * checkbox group joined with ", " ('' when none is checked); the file
   * fields come from the chosen file when there is one and from the form
   * otherwise.
   */
  lemma PreparedFieldsResolve(fd: seq<(string, string)>, file: FileSelection, formType: string, href: string)
    requires !EncodeFails(file)
    ensures var m := MapFields(Prepared(fd, file), formType, href);
      && m.improvements == Str(Join(GetAll(fd, "improvements"), ", "))
      && (file.NoFile? ==> && m.fileName == Str(LastSubmitted(fd, "fileName"))
                           && m.fileContent == Str(LastSubmitted(fd, "fileContent"))
                           && m.fileType == Str(LastSubmitted(fd, "fileType")))
      && (file.Chosen? ==> && m.fileName == Str(file.name)
                           && m.fileContent == Str(file.encoded.value)
                           && m.fileType == Str(file.mimeType))
  {
    PreparedGet(fd, file, "improvements");
    PreparedGet(fd, file, "fileName");
    PreparedGet(fd, file, "fileContent");
    PreparedGet(fd, file, "fileType");
    OrSubmitted(fd, "fileName", Str(""));
    OrSubmitted(fd, "fileContent", Str(""));
    OrSubmitted(fd, "fileType", Str(""));
  }

  /**
   * The A/B fields trackFormSubmission appends last win over any the form
   * itself carried: the record names the current variation and its title.
   */
  lemma TrackedFieldsWin(userFd: seq<(string, string)>, file: FileSelection, formType: string, href: string,
                         variation: string, title: string)
    requires !EncodeFails(file)
    requires variation != "" && title != ""
    ensures var fd := userFd + [("ab_test_variation", variation), ("ab_test_title", title)];
      var m := MapFields(Prepared(fd, file), formType, href);
      m.abTestVariation == Str(variation) && m.abTestTitle == Str(title)
  {
    var tail := [("ab_test_variation", variation), ("ab_test_title", title)];
    var fd := userFd + tail;
    GetAllAppend(userFd, tail, "ab_test_variation");
    GetAllAppend(userFd, tail, "ab_test_title");
    assert tail[..1] == [("ab_test_variation", variation)];
    assert tail[..1][..0] == [];
    assert GetAll(tail[..1], "ab_test_variation") == [variation];
    assert GetAll(tail[..1], "ab_test_title") == [];
    assert GetAll(tail, "ab_test_variation") == [variation];
    assert GetAll(tail, "ab_test_title") == [title];
    PreparedKeepsSubmitted(fd, file);
    FormFieldsResolve(Prepared(fd, file), fd, formType, href);
  }

  /** Whether window.googleSheetsIntegration exists and, if so, its isEnabled flag. */
  datatype SheetsPresence = Absent | Present(isEnabled: bool)

  datatype SendOutcome =
    | EncodeFailed                    // the file could not be read: alert, nothing sent
    | LocalOnly(data: Obj<JsVal>)     // file: protocol: the prepared data is only logged
    | NotForwarded(record: Submission) // no enabled integration: nothing sent
    | Forwarded(record: Submission)    // submitToGoogleSheets(record, formType) is called

  /**
   * sendToServer up to the call into the Sheets integration: prepare `data`,
   * map it, then take the first early exit that applies.
   */
  method SendToServer(fd: seq<(string, string)>, formType: string, file: FileSelection,
                      isLocal: bool, sheets: SheetsPresence, href: string)
    returns (out: SendOutcome)
    ensures out.EncodeFailed? <==> EncodeFails(file)
    ensures out.LocalOnly? <==> !EncodeFails(file) && isLocal
    ensures out.Forwarded? <==> !EncodeFails(file) && !isLocal && sheets == Present(true)
    ensures out.LocalOnly? ==> out.data == Prepared(fd, file)
    ensures out.Forwarded? || out.NotForwarded? ==> out.record == MapFields(Prepared(fd, file), formType, href)
  {
    var data := FromEntries(AsValues(fd));
    data := Set(data, "improvements", List(GetAll(fd, "improvements")));
    if file.Chosen? {
      if file.encoded.None? {
        return EncodeFailed;
      }
      data := Set(data, "fileName", Str(file.name));
      data := Set(data, "fileContent", Str(file.encoded.value));
      data := Set(data, "fileType", Str(file.mimeType));
    }
    var mapped := MapFields(data, formType, href);
    if isLocal {
      return LocalOnly(data);
    }
    if sheets.Present? && sheets.isEnabled {
      return Forwarded(mapped);
    }
    return NotForwarded(mapped);
  }

  // ---------------------------------------------------------------------------
  // The submit listener
  // ---------------------------------------------------------------------------

  /**
   * The listener enhanceForm adds: the form's entries go through
   * trackFormSubmission, which logs the conversion (or throws), and only
   * then does handleFormSubmission decide; a form the handler then blocks
   * has still been logged as a submission.
   */
  method OnSubmit(ab: ABTesting.ABTestingSystem, form: FormElement, fd: seq<(string, string)>,
                  ctx: ABTesting.PageContext, checked: nat, required: seq<string>,
                  automationButton: bool, confirmation: bool, contactButton: bool)
    returns (h: Handling, sent: seq<(string, string)>)
    requires ab.Valid()
    modifies ab
    ensures ab.Valid()
    ensures ab.currentVariation == old(ab.currentVariation)
    ensures ABTesting.FindVariation(ab.variations, ab.currentVariation).None? ==>
      h == Threw(ABTesting.UndefinedTitleError) && ab.events == old(ab.events) && ab.storage == old(ab.storage)
    ensures ABTesting.FindVariation(ab.variations, ab.currentVariation).Some? ==>
      var v := ab.currentVariation;
      var title := ABTesting.FindVariation(ab.variations, v).value.title;
      && sent == fd + [("ab_test_variation", v), ("ab_test_title", title)]
      && h == Decision(form.id, checked, required, automationButton, confirmation, contactButton)
      && ab.events == old(ab.events) + [ABTesting.NewEvent(ctx, v, "form_submission",
                                                           map["variation" := v, "title" := title])]
      && ab.storage == old(ab.storage)[ABTesting.AnalyticsKey := ABTesting.Log(ab.events)]
  {
    var enhanced := ab.TrackFormSubmission(fd, ctx);
    if enhanced.Err? {
      return Threw(enhanced.message), [];
    }
    sent := enhanced.value;
    var flagged;
    h, flagged := HandleFormSubmission(form.id, checked, required, automationButton, confirmation, contactButton);
  }
}
